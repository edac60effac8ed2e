/** The file explorer (src/components/FileExplorer.tsx): per-file line counts against the
    previous version, the nested file tree with its sibling order, the editor language
    of a file name, and the list of open tabs. File collections are association lists
    from path to content; a path the collection lacks reads as `undefined`. */
module FileExplorer {
  import opened Wrappers
  import opened Assoc
  import opened JsString

  type Files = AList<string, string>

  datatype Diff = Diff(added: nat, deleted: nat)

  // ---------------------------------------------------------------------------
  // calculateLineDiff

  /** Number of lines the explorer attributes to a content: none for an empty (or
      missing) content, otherwise the number of `'\n'`-separated segments. */
  function Lines(s: string): nat {
    if s == "" then 0 else |Split(s, '\n')|
  }

  /** `lines[i]`, which is `undefined` past the end. */
  function At(lines: seq<string>, i: nat): Option<string> {
    if i < |lines| then Some(lines[i]) else None
  }

  /** Whether index `i` counts as an added line: the current side has a line there that
      the previous side lacks or holds differently. */
  function AddedAt(cur: seq<string>, prev: seq<string>, i: nat): nat {
    if i < |cur| && (i >= |prev| || cur[i] != prev[i]) then 1 else 0
  }

  /** Whether index `i` counts as a deleted line, symmetrically. */
  function DeletedAt(cur: seq<string>, prev: seq<string>, i: nat): nat {
    if i < |prev| && (i >= |cur| || cur[i] != prev[i]) then 1 else 0
  }

  function AddedBelow(cur: seq<string>, prev: seq<string>, n: nat): nat {
    if n == 0 then 0 else AddedBelow(cur, prev, n - 1) + AddedAt(cur, prev, n - 1)
  }

  function DeletedBelow(cur: seq<string>, prev: seq<string>, n: nat): nat {
    if n == 0 then 0 else DeletedBelow(cur, prev, n - 1) + DeletedAt(cur, prev, n - 1)
  }

  function Max(a: nat, b: nat): nat {
    if a < b then b else a
  }

  /** The counts the explorer shows for one file: all current lines when there was no
      previous content, all previous lines when there is no current content, and
      otherwise a position-by-position comparison of the two line lists. */
  function LineDiff(current: string, prev: string): Diff {
    if prev == "" && current != "" then Diff(|Split(current, '\n')|, 0)
    else if prev != "" && current == "" then Diff(0, |Split(prev, '\n')|)
    else if prev == "" && current == "" then Diff(0, 0)
    else
      var c := Split(current, '\n');
      var p := Split(prev, '\n');
      Diff(AddedBelow(c, p, Max(|c|, |p|)), DeletedBelow(c, p, Max(|c|, |p|)))
  }

  /** `calculateLineDiff(currentContent, prevContent)`; `None` is `undefined`, which the
      code treats like the empty string. */
  method CalculateLineDiff(currentContent: Option<string>, prevContent: Option<string>) returns (d: Diff)
    ensures d == LineDiff(currentContent.GetOr(""), prevContent.GetOr(""))
  {
    var current := currentContent.GetOr("");
    var prev := prevContent.GetOr("");
    if prev == "" && current != "" {
      return Diff(|Split(current, '\n')|, 0);
    }
    if prev != "" && current == "" {
      return Diff(0, |Split(prev, '\n')|);
    }
    if prev == "" && current == "" {
      return Diff(0, 0);
    }
    var currentLines := Split(current, '\n');
    var prevLines := Split(prev, '\n');
    var added := 0;
    var deleted := 0;
    var maxLen := Max(|currentLines|, |prevLines|);
    var i := 0;
    while i < maxLen
      invariant i <= maxLen
      invariant added == AddedBelow(currentLines, prevLines, i)
      invariant deleted == DeletedBelow(currentLines, prevLines, i)
    {
      var cur := At(currentLines, i);
      var prv := At(prevLines, i);
      if cur != prv {
        if cur.None? {
          deleted := deleted + 1;
        } else if prv.None? {
          added := added + 1;
        } else {
          added := added + 1;
          deleted := deleted + 1;
        }
      }
      i := i + 1;
    }
    return Diff(added, deleted);
  }

  function Min(a: nat, b: nat): nat {
    if a < b then a else b
  }

  lemma {:induction false} NetBelow(cur: seq<string>, prev: seq<string>, n: nat)
    ensures AddedBelow(cur, prev, n) as int - DeletedBelow(cur, prev, n) as int == Min(n, |cur|) as int - Min(n, |prev|) as int
    ensures AddedBelow(cur, prev, n) <= Min(n, |cur|) && DeletedBelow(cur, prev, n) <= Min(n, |prev|)
  {
    if n > 0 {
      NetBelow(cur, prev, n - 1);
    }
  }

  /** Whatever the two contents, added minus deleted is the change in the number of
      lines, and neither count exceeds the lines of its own side. */
  lemma NetChange(current: string, prev: string)
    ensures LineDiff(current, prev).added as int - LineDiff(current, prev).deleted as int == Lines(current) as int - Lines(prev) as int
    ensures LineDiff(current, prev).added <= Lines(current)
    ensures LineDiff(current, prev).deleted <= Lines(prev)
  {
    if prev != "" && current != "" {
      var c := Split(current, '\n');
      var p := Split(prev, '\n');
      NetBelow(c, p, Max(|c|, |p|));
    }
  }

  lemma {:induction false} ZeroBelow(cur: seq<string>, prev: seq<string>, n: nat)
    ensures AddedBelow(cur, prev, n) == 0 && DeletedBelow(cur, prev, n) == 0
        <==> forall i :: 0 <= i < n ==> AddedAt(cur, prev, i) == 0 && DeletedAt(cur, prev, i) == 0
  {
    if n > 0 {
      ZeroBelow(cur, prev, n - 1);
    }
  }

  /** The counts are both zero exactly when the two contents are equal. */
  lemma UnchangedIff(current: string, prev: string)
    ensures LineDiff(current, prev) == Diff(0, 0) <==> current == prev
  {
    if prev != "" && current != "" {
      var c := Split(current, '\n');
      var p := Split(prev, '\n');
      var m := Max(|c|, |p|);
      ZeroBelow(c, p, m);
      if current != prev {
        JoinSplit(current, '\n');
        JoinSplit(prev, '\n');
        assert c != p;
        if |c| != |p| {
          var k := Min(|c|, |p|);
          assert AddedAt(c, p, k) == 1 || DeletedAt(c, p, k) == 1;
        } else {
          var k :| 0 <= k < |c| && c[k] != p[k];
          assert AddedAt(c, p, k) == 1;
        }
      }
    }
  }

  lemma {:induction false} SwapBelow(cur: seq<string>, prev: seq<string>, n: nat)
    ensures AddedBelow(cur, prev, n) == DeletedBelow(prev, cur, n)
    ensures DeletedBelow(cur, prev, n) == AddedBelow(prev, cur, n)
  {
    if n > 0 {
      SwapBelow(cur, prev, n - 1);
    }
  }

  /** Swapping the two versions swaps the counts. */
  lemma SwapSides(current: string, prev: string)
    ensures LineDiff(prev, current) == Diff(LineDiff(current, prev).deleted, LineDiff(current, prev).added)
  {
    if prev != "" && current != "" {
      var c := Split(current, '\n');
      var p := Split(prev, '\n');
      SwapBelow(c, p, Max(|c|, |p|));
      assert Max(|c|, |p|) == Max(|p|, |c|);
    }
  }

  // ---------------------------------------------------------------------------
  // getLanguageFromExtension

  const EXTENSION_LANGUAGES: AList<string, string> :=
    [("js", "javascript"), ("jsx", "javascript"), ("ts", "typescript"), ("tsx", "typescript"),
     ("json", "json"), ("html", "html"), ("css", "css"), ("md", "markdown")]

  /** `fileName.split('.').pop()?.toLowerCase()`: the lower-cased text after the last
      dot, or the whole name when it has no dot. */
  function Extension(fileName: string): string {
    var parts := Split(fileName, '.');
    ToLowerAscii(parts[|parts| - 1])
  }

  /** `EXTENSION_LANGUAGES[ext] || 'plaintext'`. */
  function LanguageOf(ext: string): (lang: string)
    ensures lang == "plaintext" <==> ext !in Keys(EXTENSION_LANGUAGES)
  {
    GetIn(EXTENSION_LANGUAGES, ext);
    match Get(EXTENSION_LANGUAGES, ext)
    case Some(lang) => lang
    case None => "plaintext"
  }

  /** The editor is always handed one of seven language names. */
  lemma LanguageNames(ext: string)
    ensures LanguageOf(ext) in ["javascript", "typescript", "json", "html", "css", "markdown", "plaintext"]
  {
    GetIn(EXTENSION_LANGUAGES, ext);
  }

  /** `getLanguageFromExtension`: the editor language of a file name, "plaintext" when
      its extension is not listed. */
  function Language(fileName: string): string {
    LanguageOf(Extension(fileName))
  }

  lemma {:induction false} SplitWithout(t: string, c: char)
    requires c !in t
    ensures Split(t, c) == [t]
  {
    if t != [] {
      SplitWithout(t[1..], c);
      assert [t[0]] + t[1..] == t;
    }
  }

  lemma {:induction false} SplitLast(s: string, c: char, t: string)
    requires c !in t
    ensures var parts := Split(s + [c] + t, c); |parts| >= 2 && parts[|parts| - 1] == t
    decreases |s|
  {
    if s == [] {
      assert s + [c] + t == [c] + t;
      assert ([c] + t)[1..] == t;
      SplitWithout(t, c);
    } else {
      SplitLast(s[1..], c, t);
      assert (s + [c] + t)[1..] == s[1..] + [c] + t;
    }
  }

  /** The language is decided by the text after the last dot alone, compared without
      regard to ASCII case; a name without a dot is its own extension. */
  lemma LanguageFromLastDot(stem: string, ext: string)
    requires '.' !in ext
    ensures Extension(stem + "." + ext) == ToLowerAscii(ext)
    ensures Extension(ext) == ToLowerAscii(ext)
    ensures Language(stem + "." + ext) == Language(ext)
  {
    SplitLast(stem, '.', ext);
    SplitWithout(ext, '.');
  }

  // ---------------------------------------------------------------------------
  // buildFileTree

  datatype Kind = Directory | File

  /** A node of the tree under construction. A level (a `Record<string, Internal>`) is
      the list of its nodes in insertion order, each keyed by its name. A file's
      `children` is `undefined` in the code; here it is the empty list, told apart from
      a directory's by `kind`. */
  datatype Internal = Internal(name: string, path: string, kind: Kind, children: seq<Internal>,
                               added: Option<nat>, deleted: Option<nat>)

  /** The position of the node keyed `name` in a level (`current[name]`). */
  function Find(level: seq<Internal>, name: string): (r: Option<nat>)
    ensures r.Some? ==> r.value < |level| && level[r.value].name == name
    ensures r.Some? ==> forall j :: 0 <= j < r.value ==> level[j].name != name
    ensures r.None? <==> forall j :: 0 <= j < |level| ==> level[j].name != name
  {
    if level == [] then None
    else if level[0].name == name then Some(0)
    else match Find(level[1..], name)
      case None => None
      case Some(k) => Some(k + 1)
  }

  function Segs(path: string): seq<string> {
    Segments(path, '/')
  }

  /** The node created for segment `i` of `parts` when the level lacks it: a file with
      the file's line counts for the last segment, otherwise an empty directory; its
      path is the segments up to and including `i`, joined with `'/'`. */
  function NewNode(parts: seq<string>, i: nat, d: Diff): Internal
    requires i < |parts|
  {
    var currentPath := Join(parts[..i + 1], '/');
    if i == |parts| - 1 then
      Internal(parts[i], currentPath, File, [], Some(d.added), Some(d.deleted))
    else
      Internal(parts[i], currentPath, Directory, [], None, None)
  }

  /** The walk over the segments of one path from segment `i` on; `level` is the level
      the `current` cursor points at. A missing segment is created. The cursor moves
      into the segment's node when that is not the last segment and the node has
      children; a file met before the last segment leaves the cursor where it is, so
      the remaining segments are placed at that level. */
  function InsertParts(level: seq<Internal>, parts: seq<string>, i: nat, d: Diff): seq<Internal>
    decreases |parts| - i
  {
    if i >= |parts| then level
    else
      var found := Find(level, parts[i]);
      var level1 := if found.None? then level + [NewNode(parts, i, d)] else level;
      var k := if found.None? then |level| else found.value;
      if i == |parts| - 1 then level1
      else if level1[k].kind == Directory then
        level1[k := level1[k].(children := InsertParts(level1[k].children, parts, i + 1, d))]
      else InsertParts(level1, parts, i + 1, d)
  }

  /** `calculateLineDiff(files?.[path], prevFiles?.[path])`. */
  function PathDiff(path: string, files: Files, prevFiles: Files): Diff {
    LineDiff(Get(files, path).GetOr(""), Get(prevFiles, path).GetOr(""))
  }

  function InsertPath(root: seq<Internal>, path: string, diffOf: string -> Diff): seq<Internal> {
    InsertParts(root, Segs(path), 0, diffOf(path))
  }

  /** `new Set([...Object.keys(files), ...Object.keys(prevFiles)])`, in insertion order. */
  function AllPaths(files: Files, prevFiles: Files): seq<string> {
    Dedup(Keys(files) + Keys(prevFiles))
  }

  /** The root after the paths have been walked in order. */
  function Inserted(paths: seq<string>, diffOf: string -> Diff): seq<Internal> {
    if paths == [] then []
    else InsertPath(Inserted(paths[..|paths| - 1], diffOf), paths[|paths| - 1], diffOf)
  }

  /** The line counts of each path. */
  function DiffOf(files: Files, prevFiles: Files): string -> Diff {
    path => PathDiff(path, files, prevFiles)
  }

  function Root(files: Files, prevFiles: Files): seq<Internal> {
    Inserted(AllPaths(files, prevFiles), DiffOf(files, prevFiles))
  }

  /** The node reached from `level` by following the segment list `s` through
      directories. */
  function Lookup(level: seq<Internal>, s: seq<string>): Option<Internal>
    decreases |s|
  {
    if s == [] then None
    else match Find(level, s[0])
      case None => None
      case Some(k) =>
        if |s| == 1 then Some(level[k])
        else if level[k].kind == Directory then Lookup(level[k].children, s[1..])
        else None
  }

  predicate NodeOk(n: Internal) {
    && n.name != ""
    && (n.kind == File ==> n.children == [] && n.added.Some? && n.deleted.Some?)
    && (n.kind == Directory ==> n.added.None? && n.deleted.None?)
  }

  /** Keys within a level are distinct and non-empty, files have no children, and only
      files carry line counts. */
  predicate Wf(level: seq<Internal>)
    decreases level
  {
    && (forall i, j :: 0 <= i < j < |level| ==> level[i].name != level[j].name)
    && (forall i :: 0 <= i < |level| ==> NodeOk(level[i]) && Wf(level[i].children))
  }

  lemma WfAppend(level: seq<Internal>, n: Internal)
    requires Wf(level) && NodeOk(n) && Wf(n.children) && Find(level, n.name).None?
    ensures Wf(level + [n])
  {
    var l := level + [n];
    forall i | 0 <= i < |l| ensures NodeOk(l[i]) && Wf(l[i].children) {
      if i < |level| {
        assert l[i] == level[i];
      }
    }
  }

  lemma WfReplace(level: seq<Internal>, k: nat, n: Internal)
    requires Wf(level) && k < |level| && NodeOk(n) && Wf(n.children) && n.name == level[k].name
    ensures Wf(level[k := n])
  {
    var l := level[k := n];
    forall i | 0 <= i < |l| ensures NodeOk(l[i]) && Wf(l[i].children) {
      if i != k {
        assert l[i] == level[i];
      }
    }
  }

  /** The walk keeps the tree well formed. */
  lemma {:induction false} InsertWf(level: seq<Internal>, parts: seq<string>, i: nat, d: Diff)
    requires Wf(level)
    requires forall j :: 0 <= j < |parts| ==> parts[j] != ""
    ensures Wf(InsertParts(level, parts, i, d))
    decreases |parts| - i
  {
    if i < |parts| {
      var found := Find(level, parts[i]);
      var level1 := if found.None? then level + [NewNode(parts, i, d)] else level;
      var k := if found.None? then |level| else found.value;
      if found.None? {
        WfAppend(level, NewNode(parts, i, d));
      }
      if i < |parts| - 1 {
        if level1[k].kind == Directory {
          InsertWf(level1[k].children, parts, i + 1, d);
          WfReplace(level1, k, level1[k].(children := InsertParts(level1[k].children, parts, i + 1, d)));
        } else {
          InsertWf(level1, parts, i + 1, d);
        }
      }
    }
  }

  lemma {:induction false} InsertedWf(paths: seq<string>, diffOf: string -> Diff)
    ensures Wf(Inserted(paths, diffOf))
  {
    if paths != [] {
      InsertedWf(paths[..|paths| - 1], diffOf);
      InsertWf(Inserted(paths[..|paths| - 1], diffOf), Segs(paths[|paths| - 1]), 0, diffOf(paths[|paths| - 1]));
    }
  }

  /** Whatever the paths, the tree is well formed: in particular only files carry line
      counts. */
  lemma RootWf(files: Files, prevFiles: Files)
    ensures Wf(Root(files, prevFiles))
  {
    InsertedWf(AllPaths(files, prevFiles), DiffOf(files, prevFiles));
  }

  lemma {:induction false} FindAppend(level: seq<Internal>, n: Internal, name: string)
    ensures Find(level + [n], name) == if Find(level, name).Some? then Find(level, name) else if n.name == name then Some(|level|) else None
  {
    if level != [] {
      FindAppend(level[1..], n, name);
      assert (level + [n])[1..] == level[1..] + [n];
    }
  }

  lemma FindReplace(level: seq<Internal>, k: nat, n: Internal, name: string)
    requires k < |level| && n.name == level[k].name
    ensures Find(level[k := n], name) == Find(level, name)
  {
    var l := level[k := n];
    assert forall j :: 0 <= j < |level| ==> l[j].name == level[j].name;
  }

  /** How an old node compares with the node at the same place after a walk: a file is
      untouched and a directory differs at most in its children. */
  predicate Kept(a: Internal, b: Internal) {
    b == a.(children := b.children) && (a.kind == File ==> b == a)
  }

  /** A walk never removes a node and never alters a file or the fields of a
      directory other than its children, even when it meets a file on the way. */
  lemma {:induction false} InsertKeeps(level: seq<Internal>, parts: seq<string>, i: nat, d: Diff, s: seq<string>)
    requires Lookup(level, s).Some?
    ensures Lookup(InsertParts(level, parts, i, d), s).Some?
    ensures Kept(Lookup(level, s).value, Lookup(InsertParts(level, parts, i, d), s).value)
    decreases |parts| - i
  {
    if i < |parts| {
      var found := Find(level, parts[i]);
      var n := NewNode(parts, i, d);
      var level1 := if found.None? then level + [n] else level;
      var k := if found.None? then |level| else found.value;
      FindAppend(level, n, parts[i]);
      if found.None? {
        LookupAppended(level, n, s);
      }
      assert Lookup(level1, s) == Lookup(level, s);
      if i < |parts| - 1 {
        if level1[k].kind == Directory {
          var c := InsertParts(level1[k].children, parts, i + 1, d);
          LookupReplaced(level1, k, level1[k].(children := c), s);
          if s[0] == parts[i] && |s| > 1 {
            InsertKeeps(level1[k].children, parts, i + 1, d, s[1..]);
          }
        } else {
          InsertKeeps(level1, parts, i + 1, d, s);
        }
      }
    }
  }

  function IsPrefix(s: seq<string>, u: seq<string>): bool {
    |s| <= |u| && u[..|s|] == s
  }

  /** Along the segment list `t` no file stands before the end, and nothing stands at
      its end. */
  predicate Clear(level: seq<Internal>, t: seq<string>) {
    && Lookup(level, t).None?
    && forall j :: 1 <= j < |t| ==> Lookup(level, t[..j]).None? || Lookup(level, t[..j]).value.kind == Directory
  }

  lemma ClearInto(level: seq<Internal>, parts: seq<string>, i: nat)
    requires i + 1 < |parts| && Clear(level, parts[i..]) && Find(level, parts[i]).Some?
    ensures level[Find(level, parts[i]).value].kind == Directory
    ensures Clear(level[Find(level, parts[i]).value].children, parts[i + 1..])
  {
    var k := Find(level, parts[i]).value;
    var t := parts[i..];
    var t' := parts[i + 1..];
    assert t[..1] == [parts[i]];
    assert Lookup(level, t[..1]) == Some(level[k]);
    assert t[1..] == t';
    forall j | 1 <= j < |t'|
      ensures Lookup(level[k].children, t'[..j]) == Lookup(level, t[..j + 1])
    {
      assert t[..j + 1][0] == parts[i] && t[..j + 1][1..] == t'[..j];
    }
  }

  /** A walk along a clear segment list puts the file at its end. */
  lemma {:induction false} InsertPlaces(level: seq<Internal>, parts: seq<string>, i: nat, d: Diff)
    requires i < |parts| && Clear(level, parts[i..])
    ensures Lookup(InsertParts(level, parts, i, d), parts[i..]) == Some(NewNode(parts, |parts| - 1, d))
    decreases |parts| - i
  {
    var t := parts[i..];
    var found := Find(level, parts[i]);
    var n := NewNode(parts, i, d);
    FindAppend(level, n, parts[i]);
    if i == |parts| - 1 {
      assert t == [parts[i]];
    } else {
      assert t[1..] == parts[i + 1..];
      if found.None? {
        var level1 := level + [n];
        var c := InsertParts([], parts, i + 1, d);
        InsertPlaces([], parts, i + 1, d);
        FindReplace(level1, |level|, n.(children := c), parts[i]);
      } else {
        var k := found.value;
        ClearInto(level, parts, i);
        var c := InsertParts(level[k].children, parts, i + 1, d);
        InsertPlaces(level[k].children, parts, i + 1, d);
        FindReplace(level, k, level[k].(children := c), parts[i]);
      }
    }
  }

  /** What a walk may leave at `s`: the node that was there, or a node on the way
      along `parts` from `i` carrying the joined segments leading to it, which is a
      file only at the end. */
  predicate Along(level: seq<Internal>, parts: seq<string>, i: nat, s: seq<string>, r: Internal)
    requires i <= |parts|
  {
    || Lookup(level, s).Some?
    || (&& IsPrefix(s, parts[i..])
        && r.path == Join(parts[..i + |s|], '/')
        && (r.kind == File ==> |s| == |parts| - i))
  }

  /** A walk along a clear segment list adds nodes only on that list's way: each new
      node carries the joined segments leading to it, and only the one at the end is a
      file. */
  lemma {:induction false} InsertAlong(level: seq<Internal>, parts: seq<string>, i: nat, d: Diff, s: seq<string>)
    requires i < |parts| && Clear(level, parts[i..])
    requires Lookup(InsertParts(level, parts, i, d), s).Some?
    ensures Along(level, parts, i, s, Lookup(InsertParts(level, parts, i, d), s).value)
    decreases |parts| - i, 1
  {
    var found := Find(level, parts[i]);
    var n := NewNode(parts, i, d);
    if i < |parts| - 1 {
      if found.None? {
        InsertAlongNew(level, parts, i, d, s);
      } else {
        InsertAlongOld(level, parts, i, d, s);
      }
    } else {
      FindAppend(level, n, s[0]);
      if s[0] == parts[i] && found.None? {
        assert parts[i..] == [parts[i]];
        assert |s| == 1;
      }
    }
  }

  lemma UnfoldNew(level: seq<Internal>, parts: seq<string>, i: nat, d: Diff)
    requires i < |parts| - 1 && Find(level, parts[i]).None?
    ensures var n := NewNode(parts, i, d);
      InsertParts(level, parts, i, d)
        == (level + [n])[|level| := n.(children := InsertParts([], parts, i + 1, d))]
  {
  }

  lemma UnfoldOld(level: seq<Internal>, parts: seq<string>, i: nat, d: Diff)
    requires i < |parts| - 1 && Find(level, parts[i]).Some? && level[Find(level, parts[i]).value].kind == Directory
    ensures var k := Find(level, parts[i]).value;
      InsertParts(level, parts, i, d)
        == level[k := level[k].(children := InsertParts(level[k].children, parts, i + 1, d))]
  {
  }

  /** Looking up through a level in which directory `k` got new children. */
  lemma LookupReplaced(level: seq<Internal>, k: nat, d: Internal, s: seq<string>)
    requires k < |level| && Find(level, level[k].name) == Some(k)
    requires d.name == level[k].name && d.kind == Directory && s != []
    ensures Lookup(level[k := d], s)
      == if s[0] != d.name then Lookup(level, s) else if |s| == 1 then Some(d) else Lookup(d.children, s[1..])
  {
    FindReplace(level, k, d, s[0]);
  }

  lemma LookupAppended(level: seq<Internal>, n: Internal, s: seq<string>)
    requires Find(level, n.name).None? && s != [] && s[0] != n.name
    ensures Lookup(level + [n], s) == Lookup(level, s)
  {
    FindAppend(level, n, s[0]);
    if Find(level, s[0]).Some? {
      assert (level + [n])[Find(level, s[0]).value] == level[Find(level, s[0]).value];
    }
  }

  lemma PrefixCons(parts: seq<string>, i: nat, s: seq<string>)
    requires i < |parts| && s != [] && s[0] == parts[i] && IsPrefix(s[1..], parts[i + 1..])
    ensures IsPrefix(s, parts[i..])
  {
    assert parts[i..][..|s|] == [parts[i]] + parts[i + 1..][..|s| - 1];
    assert s == [s[0]] + s[1..];
  }

  /** Going one level down: what holds at `s[1..]` below directory `k` holds at `s`. */
  lemma AlongCons(level: seq<Internal>, k: nat, parts: seq<string>, i: nat, s: seq<string>, r: Internal)
    requires i < |parts| - 1 && k < |level| && Find(level, parts[i]) == Some(k) && level[k].kind == Directory
    requires |s| > 1 && s[0] == parts[i]
    requires Along(level[k].children, parts, i + 1, s[1..], r)
    ensures Along(level, parts, i, s, r)
  {
    assert Lookup(level, s) == Lookup(level[k].children, s[1..]);
    if Lookup(level, s).None? {
      var m := i + |s|;
      assert i + 1 + |s[1..]| == m;
      assert parts[..i + 1 + |s[1..]|] == parts[..m];
      PrefixCons(parts, i, s);
    }
  }

  lemma AlongConsNew(level: seq<Internal>, parts: seq<string>, i: nat, s: seq<string>, r: Internal)
    requires i < |parts| - 1 && |s| > 1 && s[0] == parts[i]
    requires Along([], parts, i + 1, s[1..], r)
    ensures Along(level, parts, i, s, r)
  {
    PrefixCons(parts, i, s);
  }

  lemma {:induction false} InsertAlongNew(level: seq<Internal>, parts: seq<string>, i: nat, d: Diff, s: seq<string>)
    requires i < |parts| - 1 && Clear(level, parts[i..]) && Find(level, parts[i]).None?
    requires Lookup(InsertParts(level, parts, i, d), s).Some?
    ensures Along(level, parts, i, s, Lookup(InsertParts(level, parts, i, d), s).value)
    decreases |parts| - i, 0
  {
    var n := NewNode(parts, i, d);
    var level1 := level + [n];
    var c := InsertParts([], parts, i + 1, d);
    UnfoldNew(level, parts, i, d);
    FindAppend(level, n, parts[i]);
    LookupReplaced(level1, |level|, n.(children := c), s);
    if s[0] != parts[i] {
      LookupAppended(level, n, s);
    } else if |s| > 1 {
      InsertAlong([], parts, i + 1, d, s[1..]);
      AlongConsNew(level, parts, i, s, Lookup(c, s[1..]).value);
    } else {
      assert parts[i..][..1] == [parts[i]];
    }
  }

  lemma {:induction false} InsertAlongOld(level: seq<Internal>, parts: seq<string>, i: nat, d: Diff, s: seq<string>)
    requires i < |parts| - 1 && Clear(level, parts[i..]) && Find(level, parts[i]).Some?
    requires Lookup(InsertParts(level, parts, i, d), s).Some?
    ensures Along(level, parts, i, s, Lookup(InsertParts(level, parts, i, d), s).value)
    decreases |parts| - i, 0
  {
    var k := Find(level, parts[i]).value;
    ClearInto(level, parts, i);
    var c := InsertParts(level[k].children, parts, i + 1, d);
    UnfoldOld(level, parts, i, d);
    LookupReplaced(level, k, level[k].(children := c), s);
    if s[0] == parts[i] && |s| > 1 {
      InsertAlong(level[k].children, parts, i + 1, d, s[1..]);
      AlongCons(level, k, parts, i, s, Lookup(c, s[1..]).value);
    }
  }

  /** Every node lies on the way to one of the segment lists `segs`, carries the joined
      segments leading to it as its path, and is a file only at the end of one. */
  ghost predicate Placed(root: seq<Internal>, segs: seq<seq<string>>) {
    forall s :: Lookup(root, s).Some? ==>
      && Lookup(root, s).value.path == Join(s, '/')
      && (exists u :: u in segs && IsPrefix(s, u))
      && (Lookup(root, s).value.kind == File ==> s in segs)
  }

  function SegsOf(paths: seq<string>): (r: seq<seq<string>>)
    ensures |r| == |paths| && forall i :: 0 <= i < |paths| ==> r[i] == Segs(paths[i])
  {
    seq(|paths|, i requires 0 <= i < |paths| => Segs(paths[i]))
  }

  /** No path's non-empty segment list begins another path's (so no two paths share a
      segment list, and no file path is also a directory path). */
  predicate PrefixFree(paths: seq<string>) {
    forall i, j :: 0 <= i < |paths| && 0 <= j < |paths| && i != j && Segs(paths[i]) != [] ==> !IsPrefix(Segs(paths[i]), Segs(paths[j]))
  }

  /** The file node a path's walk creates. */
  function Leaf(path: string, diffOf: string -> Diff): Internal
    requires Segs(path) != []
  {
    NewNode(Segs(path), |Segs(path)| - 1, diffOf(path))
  }

  lemma ClearForNext(root: seq<Internal>, paths: seq<string>)
    requires paths != [] && PrefixFree(paths) && Segs(paths[|paths| - 1]) != []
    requires Placed(root, SegsOf(paths[..|paths| - 1]))
    ensures Clear(root, Segs(paths[|paths| - 1]))
  {
    var n := |paths| - 1;
    var front := paths[..n];
    var t := Segs(paths[n]);
    forall u | u in SegsOf(front) ensures !IsPrefix(t, u) {
      var m :| 0 <= m < |front| && SegsOf(front)[m] == u;
      assert u == Segs(paths[m]);
    }
    forall j | 1 <= j < |t|
      ensures Lookup(root, t[..j]).None? || Lookup(root, t[..j]).value.kind == Directory
    {
      assert IsPrefix(t[..j], t);
      forall m | 0 <= m < |front| ensures SegsOf(front)[m] != t[..j] {
        assert SegsOf(front)[m] == Segs(paths[m]);
      }
    }
  }

  lemma FrontSegs(paths: seq<string>)
    requires paths != []
    ensures forall u :: u in SegsOf(paths[..|paths| - 1]) ==> u in SegsOf(paths)
    ensures SegsOf(paths)[|paths| - 1] == Segs(paths[|paths| - 1])
  {
    var front := paths[..|paths| - 1];
    forall u | u in SegsOf(front) ensures u in SegsOf(paths) {
      var m :| 0 <= m < |front| && SegsOf(front)[m] == u;
      assert SegsOf(paths)[m] == u;
    }
  }

  lemma SegsOfSnoc(paths: seq<string>)
    requires paths != []
    ensures SegsOf(paths) == SegsOf(paths[..|paths| - 1]) + [Segs(paths[|paths| - 1])]
  {
  }

  /** A file placed earlier is untouched by a later path's walk. */
  lemma LeafKept(root: seq<Internal>, p: string, q: string, diffOf: string -> Diff)
    requires Segs(q) != [] && Lookup(root, Segs(q)) == Some(Leaf(q, diffOf))
    ensures Lookup(InsertPath(root, p, diffOf), Segs(q)) == Some(Leaf(q, diffOf))
  {
    InsertKeeps(root, Segs(p), 0, diffOf(p), Segs(q));
  }

  /** A path's walk along a clear way ends at its own file. */
  lemma LeafPlaced(root: seq<Internal>, p: string, diffOf: string -> Diff)
    requires Segs(p) != [] && Clear(root, Segs(p))
    ensures Lookup(InsertPath(root, p, diffOf), Segs(p)) == Some(Leaf(p, diffOf))
  {
    InsertPlaces(root, Segs(p), 0, diffOf(p));
    assert Segs(p)[0..] == Segs(p);
  }

  lemma StepLeaves(root: seq<Internal>, paths: seq<string>, diffOf: string -> Diff)
    requires paths != [] && Segs(paths[|paths| - 1]) != [] && Clear(root, Segs(paths[|paths| - 1]))
    requires forall i :: 0 <= i < |paths| - 1 && Segs(paths[i]) != [] ==>
      Lookup(root, Segs(paths[i])) == Some(Leaf(paths[i], diffOf))
    ensures forall i :: 0 <= i < |paths| && Segs(paths[i]) != [] ==>
      Lookup(InsertPath(root, paths[|paths| - 1], diffOf), Segs(paths[i])) == Some(Leaf(paths[i], diffOf))
  {
    var p := paths[|paths| - 1];
    forall i | 0 <= i < |paths| && Segs(paths[i]) != []
      ensures Lookup(InsertPath(root, p, diffOf), Segs(paths[i])) == Some(Leaf(paths[i], diffOf))
    {
      if i < |paths| - 1 {
        LeafKept(root, p, paths[i], diffOf);
      } else {
        LeafPlaced(root, p, diffOf);
      }
    }
  }

  /** One node after a walk along a clear segment list `t`. */
  lemma PlacedAfter(root: seq<Internal>, t: seq<string>, d: Diff, front: seq<seq<string>>, s: seq<string>)
    requires t != [] && Clear(root, t) && Placed(root, front)
    requires Lookup(InsertParts(root, t, 0, d), s).Some?
    ensures var r := Lookup(InsertParts(root, t, 0, d), s).value;
      && r.path == Join(s, '/')
      && (exists u :: u in front + [t] && IsPrefix(s, u))
      && (r.kind == File ==> s in front + [t])
  {
    InsertAlong(root, t, 0, d, s);
    if Lookup(root, s).Some? {
      InsertKeeps(root, t, 0, d, s);
      OldPlaced(root, front, s, t);
    } else {
      NewPlaced(t, s, front);
    }
  }

  lemma OldPlaced(root: seq<Internal>, front: seq<seq<string>>, s: seq<string>, t: seq<string>)
    requires Placed(root, front) && Lookup(root, s).Some?
    ensures Lookup(root, s).value.path == Join(s, '/')
    ensures exists u :: u in front + [t] && IsPrefix(s, u)
    ensures Lookup(root, s).value.kind == File ==> s in front + [t]
  {
    var u :| u in front && IsPrefix(s, u);
    assert u in front + [t];
  }

  lemma NewPlaced(t: seq<string>, s: seq<string>, front: seq<seq<string>>)
    requires IsPrefix(s, t[0..])
    ensures Join(t[..0 + |s|], '/') == Join(s, '/')
    ensures exists u :: u in front + [t] && IsPrefix(s, u)
    ensures |s| == |t| - 0 ==> s in front + [t]
  {
    assert t[0..] == t;
    assert t[..|s|] == s;
    assert (front + [t])[|front|] == t;
  }

  lemma StepPlaced(root: seq<Internal>, paths: seq<string>, diffOf: string -> Diff)
    requires paths != [] && Segs(paths[|paths| - 1]) != [] && Clear(root, Segs(paths[|paths| - 1]))
    requires Placed(root, SegsOf(paths[..|paths| - 1]))
    ensures Placed(InsertPath(root, paths[|paths| - 1], diffOf), SegsOf(paths))
  {
    var n := |paths| - 1;
    var p := paths[n];
    var t := Segs(p);
    var next := InsertParts(root, t, 0, diffOf(p));
    SegsOfSnoc(paths);
    forall s | Lookup(next, s).Some?
      ensures Lookup(next, s).value.path == Join(s, '/')
      ensures exists u :: u in SegsOf(paths) && IsPrefix(s, u)
      ensures Lookup(next, s).value.kind == File ==> s in SegsOf(paths)
    {
      PlacedAfter(root, t, diffOf(p), SegsOf(paths[..n]), s);
    }
  }

  /** When the paths are prefix-free, walking them in order gives every path with at
      least one segment its own file node at the end of its segment list, carrying its
      line counts and its joined segments as path; every node of the tree lies on the
      way to some path and carries the joined segments leading to it, and files occur
      only at the ends of paths. */
  lemma {:induction false} InsertedPlaces(paths: seq<string>, diffOf: string -> Diff)
    requires PrefixFree(paths)
    ensures Placed(Inserted(paths, diffOf), SegsOf(paths))
    ensures forall i :: 0 <= i < |paths| && Segs(paths[i]) != [] ==>
      Lookup(Inserted(paths, diffOf), Segs(paths[i])) == Some(Leaf(paths[i], diffOf))
  {
    if paths != [] {
      var n := |paths| - 1;
      var front := paths[..n];
      assert forall i :: 0 <= i < n ==> front[i] == paths[i];
      assert PrefixFree(front);
      InsertedPlaces(front, diffOf);
      var root := Inserted(front, diffOf);
      if Segs(paths[n]) == [] {
        FrontSegs(paths);
        assert Inserted(paths, diffOf) == root;
      } else {
        ClearForNext(root, paths);
        StepLeaves(root, paths, diffOf);
        StepPlaced(root, paths, diffOf);
      }
    }
  }

  /** The tree the explorer shows for prefix-free paths: one file node per path with at
      least one segment, at the end of that path's segments, carrying that path's line
      counts. */
  lemma RootPlaces(files: Files, prevFiles: Files)
    requires PrefixFree(AllPaths(files, prevFiles))
    ensures Placed(Root(files, prevFiles), SegsOf(AllPaths(files, prevFiles)))
    ensures forall p :: p in AllPaths(files, prevFiles) && Segs(p) != [] ==>
      && Lookup(Root(files, prevFiles), Segs(p)) == Some(Leaf(p, DiffOf(files, prevFiles)))
      && Leaf(p, DiffOf(files, prevFiles)).path == Join(Segs(p), '/')
      && Leaf(p, DiffOf(files, prevFiles)).kind == File
      && Leaf(p, DiffOf(files, prevFiles)).added == Some(LineDiff(Get(files, p).GetOr(""), Get(prevFiles, p).GetOr("")).added)
      && Leaf(p, DiffOf(files, prevFiles)).deleted == Some(LineDiff(Get(files, p).GetOr(""), Get(prevFiles, p).GetOr("")).deleted)
  {
    var paths := AllPaths(files, prevFiles);
    InsertedPlaces(paths, DiffOf(files, prevFiles));
    forall p | p in paths && Segs(p) != []
      ensures Lookup(Root(files, prevFiles), Segs(p)) == Some(Leaf(p, DiffOf(files, prevFiles)))
      ensures Leaf(p, DiffOf(files, prevFiles)).path == Join(Segs(p), '/')
    {
      var i :| 0 <= i < |paths| && paths[i] == p;
      assert Segs(p)[..|Segs(p)|] == Segs(p);
    }
  }

  /** Without prefix-freeness a path can lose its file: walking `a/b` and then `a`
      leaves `a` a directory, so `a` gets no file node and its line counts are not
      shown. */
  lemma DirectoryHidesFile(a: string, b: string, d1: Diff, d2: Diff)
    ensures var root := InsertParts(InsertParts([], [a, b], 0, d1), [a], 0, d2);
      && Lookup(root, [a]).Some? && Lookup(root, [a]).value.kind == Directory
      && Lookup(root, [a, b]) == Some(NewNode([a, b], 1, d1))
  {
    var r1 := InsertParts([], [a, b], 0, d1);
    assert InsertParts([], [a, b], 1, d1) == [NewNode([a, b], 1, d1)];
    assert r1 == [NewNode([a, b], 0, d1).(children := [NewNode([a, b], 1, d1)])];
    assert Find(r1, a) == Some(0);
  }

  /** A file met on the way keeps the cursor at its level: walking `a` and then `a/b`
      puts the file for `a/b` next to the file `a`, at the top level, with path
      `a/b`. */
  lemma FileKeepsCursor(a: string, b: string, d1: Diff, d2: Diff)
    requires a != b
    ensures var root := InsertParts(InsertParts([], [a], 0, d1), [a, b], 0, d2);
      && Lookup(root, [a]) == Some(NewNode([a], 0, d1))
      && Lookup(root, [b]) == Some(NewNode([a, b], 1, d2))
      && NewNode([a, b], 1, d2).path == Join([a, b], '/')
  {
    var r1 := InsertParts([], [a], 0, d1);
    assert r1 == [NewNode([a], 0, d1)];
    assert Find(r1, a) == Some(0) && Find(r1, b) == None;
    assert InsertParts(r1, [a, b], 0, d2) == InsertParts(r1, [a, b], 1, d2);
    var r2 := r1 + [NewNode([a, b], 1, d2)];
    assert InsertParts(r1, [a, b], 1, d2) == r2;
    assert Find(r2, b) == Some(1) && Find(r2, a) == Some(0);
    assert [a, b][..2] == [a, b];
  }

  // ---------------------------------------------------------------------------
  // convert: the tree handed to the explorer, each level sorted

  /** A node of the finished tree (`TreeNode`); a file's `children` is empty. */
  datatype TreeNode = TreeNode(name: string, path: string, kind: Kind, children: seq<TreeNode>,
                               added: Option<nat>, deleted: Option<nat>)

  /** The sort comparator: within a kind, names in the order `rank` gives them (the
      collation `localeCompare` follows); across kinds, directories first. */
  predicate Before(a: TreeNode, b: TreeNode, rank: string -> int) {
    if a.kind == b.kind then rank(a.name) <= rank(b.name) else a.kind == Directory
  }

  predicate Sorted(s: seq<TreeNode>, rank: string -> int) {
    forall i, j :: 0 <= i < j < |s| ==> Before(s[i], s[j], rank)
  }

  /** Inserts `x` in front of the first node it may precede. */
  function InsertSorted(x: TreeNode, s: seq<TreeNode>, rank: string -> int): (r: seq<TreeNode>)
    ensures multiset(r) == multiset(s) + multiset{x}
  {
    if s == [] then [x]
    else if Before(x, s[0], rank) then [x] + s
    else
      assert s == [s[0]] + s[1..];
      [s[0]] + InsertSorted(x, s[1..], rank)
  }

  lemma {:induction false} InsertSortedSorted(x: TreeNode, s: seq<TreeNode>, rank: string -> int)
    requires Sorted(s, rank)
    ensures Sorted(InsertSorted(x, s, rank), rank)
  {
    if s != [] && !Before(x, s[0], rank) {
      var t := InsertSorted(x, s[1..], rank);
      InsertSortedSorted(x, s[1..], rank);
      forall j | 0 <= j < |t| ensures Before(s[0], t[j], rank) {
        assert t[j] in multiset(t);
        if t[j] != x {
          assert t[j] in multiset(s[1..]);
          var k :| 0 <= k < |s[1..]| && s[1..][k] == t[j];
          assert s[k + 1] == t[j];
        }
      }
      assert InsertSorted(x, s, rank) == [s[0]] + t;
    }
  }

  /** `Array.prototype.sort` with the comparator: a sorted permutation. */
  function Sort(s: seq<TreeNode>, rank: string -> int): (r: seq<TreeNode>)
    ensures multiset(r) == multiset(s)
    ensures Sorted(r, rank)
  {
    if s == [] then []
    else
      var t := Sort(s[1..], rank);
      InsertSortedSorted(s[0], t, rank);
      assert s == [s[0]] + s[1..];
      InsertSorted(s[0], t, rank)
  }

  /** One node with its subtree converted. */
  function ConvertNode(n: Internal, rank: string -> int): TreeNode
    decreases n, 2
  {
    TreeNode(n.name, n.path, n.kind, if n.kind == Directory then ConvertLevel(n.children, rank) else [],
             n.added, n.deleted)
  }

  /** `Object.values(nodes).map(...)`: the nodes of a level, in insertion order, converted. */
  function ConvertAll(level: seq<Internal>, rank: string -> int): (r: seq<TreeNode>)
    ensures |r| == |level|
    ensures forall i :: 0 <= i < |level| ==> r[i] == ConvertNode(level[i], rank)
    decreases level, 0
  {
    if level == [] then [] else [ConvertNode(level[0], rank)] + ConvertAll(level[1..], rank)
  }

  /** `convert`: a level converted and sorted. */
  function ConvertLevel(level: seq<Internal>, rank: string -> int): (r: seq<TreeNode>)
    ensures multiset(r) == multiset(ConvertAll(level, rank))
    ensures Sorted(r, rank)
    decreases level, 1
  {
    Sort(ConvertAll(level, rank), rank)
  }

  /** Every level of the tree is sorted. */
  predicate SortedTree(level: seq<TreeNode>, rank: string -> int)
    decreases level
  {
    && Sorted(level, rank)
    && forall i :: 0 <= i < |level| ==> SortedTree(level[i].children, rank)
  }

  /** Every level of the converted tree lists its directories first, each kind in name
      order. */
  lemma {:induction false} ConvertSorted(level: seq<Internal>, rank: string -> int)
    ensures SortedTree(ConvertLevel(level, rank), rank)
    decreases level
  {
    var r := ConvertLevel(level, rank);
    var m := ConvertAll(level, rank);
    forall i | 0 <= i < |r| ensures SortedTree(r[i].children, rank) {
      assert r[i] in multiset(m);
      var k :| 0 <= k < |m| && m[k] == r[i];
      if level[k].kind == Directory {
        ConvertSorted(level[k].children, rank);
      }
    }
  }

  /** Directories precede files on every level. */
  lemma DirectoriesFirst(s: seq<TreeNode>, rank: string -> int, i: nat, j: nat)
    requires Sorted(s, rank) && i < j < |s| && s[j].kind == Directory
    ensures s[i].kind == Directory
  {
    assert Before(s[i], s[j], rank);
  }

  /** The position of the first node named `name` in a finished level. */
  function TFind(level: seq<TreeNode>, name: string): (r: Option<nat>)
    ensures r.Some? ==> r.value < |level| && level[r.value].name == name
    ensures r.None? <==> forall j :: 0 <= j < |level| ==> level[j].name != name
  {
    if level == [] then None
    else if level[0].name == name then Some(0)
    else match TFind(level[1..], name)
      case None => None
      case Some(k) => Some(k + 1)
  }

  /** The node reached in the finished tree by following `s` through directories. */
  function TLookup(level: seq<TreeNode>, s: seq<string>): Option<TreeNode>
    decreases |s|
  {
    if s == [] then None
    else match TFind(level, s[0])
      case None => None
      case Some(k) =>
        if |s| == 1 then Some(level[k])
        else if level[k].kind == Directory then TLookup(level[k].children, s[1..])
        else None
  }

  /** Sorting a level with distinct names moves nodes but does not change which node a
      name finds. */
  lemma ConvertFind(level: seq<Internal>, rank: string -> int, name: string)
    requires forall i, j :: 0 <= i < j < |level| ==> level[i].name != level[j].name
    ensures Find(level, name).None? ==> TFind(ConvertLevel(level, rank), name).None?
    ensures Find(level, name).Some? ==>
      && TFind(ConvertLevel(level, rank), name).Some?
      && ConvertLevel(level, rank)[TFind(ConvertLevel(level, rank), name).value] == ConvertNode(level[Find(level, name).value], rank)
  {
    var r := ConvertLevel(level, rank);
    var m := ConvertAll(level, rank);
    match Find(level, name)
    case None =>
      forall j | 0 <= j < |r| ensures r[j].name != name {
        var k := SameElements(r, m, j);
        assert m[k] == ConvertNode(level[k], rank);
      }
    case Some(k) =>
      var j := SameElements(m, r, k);
      assert r[j].name == name;
      var j' := TFind(r, name).value;
      var k' := SameElements(r, m, j');
      assert m[k'] == ConvertNode(level[k'], rank);
      assert level[k'].name == name;
  }

  /** Two sequences with the same elements: where one holds a value, so does the other. */
  lemma SameElements<T>(a: seq<T>, b: seq<T>, j: nat) returns (k: nat)
    requires multiset(a) == multiset(b) && j < |a|
    ensures k < |b| && b[k] == a[j]
  {
    assert a[j] in multiset(b);
    k :| 0 <= k < |b| && b[k] == a[j];
  }

  /** Following a segment list in the finished tree reaches the converted node that
      following it in the walked tree reaches. */
  lemma {:induction false} ConvertLookup(level: seq<Internal>, rank: string -> int, s: seq<string>)
    requires Wf(level)
    ensures Lookup(level, s).None? ==> TLookup(ConvertLevel(level, rank), s).None?
    ensures Lookup(level, s).Some? ==> TLookup(ConvertLevel(level, rank), s) == Some(ConvertNode(Lookup(level, s).value, rank))
    decreases |s|
  {
    if s != [] {
      ConvertFind(level, rank, s[0]);
      if Find(level, s[0]).Some? && |s| > 1 {
        var k := Find(level, s[0]).value;
        if level[k].kind == Directory {
          ConvertLookup(level[k].children, rank, s[1..]);
        }
      }
    }
  }

  lemma InsertedSnoc(paths: seq<string>, k: nat, diffOf: string -> Diff)
    requires k < |paths|
    ensures Inserted(paths[..k + 1], diffOf) == InsertParts(Inserted(paths[..k], diffOf), Segs(paths[k]), 0, diffOf(paths[k]))
  {
    assert paths[..k + 1][..k] == paths[..k];
  }

  /** `buildFileTree`, step by step: the paths of both collections are walked in order,
      each leaf carrying its line counts, and the result is converted. */
  method BuildFileTree(files: Files, prevFiles: Files, rank: string -> int) returns (tree: seq<TreeNode>)
    ensures tree == ConvertLevel(Root(files, prevFiles), rank)
  {
    var allPaths := AllPaths(files, prevFiles);
    var root: seq<Internal> := [];
    var k := 0;
    while k < |allPaths|
      invariant 0 <= k <= |allPaths|
      invariant root == Inserted(allPaths[..k], DiffOf(files, prevFiles))
    {
      var path := allPaths[k];
      var d := CalculateLineDiff(Get(files, path), Get(prevFiles, path));
      InsertedSnoc(allPaths, k, DiffOf(files, prevFiles));
      assert d == DiffOf(files, prevFiles)(path);
      root := InsertParts(root, Segs(path), 0, d);
      k := k + 1;
    }
    assert allPaths[..k] == allPaths;
    tree := ConvertLevel(root, rank);
  }

  /** When no path's segments begin another's, the finished tree has, at every path's
      segments, a file node carrying that path and its added and deleted line counts. */
  lemma TreePlaces(files: Files, prevFiles: Files, rank: string -> int)
    requires PrefixFree(AllPaths(files, prevFiles))
    ensures forall p :: p in AllPaths(files, prevFiles) && Segs(p) != [] ==>
      && TLookup(ConvertLevel(Root(files, prevFiles), rank), Segs(p)).Some?
      && TLookup(ConvertLevel(Root(files, prevFiles), rank), Segs(p)).value
         == TreeNode(Segs(p)[|Segs(p)| - 1], Join(Segs(p), '/'), File, [],
                     Some(LineDiff(Get(files, p).GetOr(""), Get(prevFiles, p).GetOr("")).added),
                     Some(LineDiff(Get(files, p).GetOr(""), Get(prevFiles, p).GetOr("")).deleted))
  {
    RootPlaces(files, prevFiles);
    RootWf(files, prevFiles);
    forall p | p in AllPaths(files, prevFiles) && Segs(p) != []
      ensures TLookup(ConvertLevel(Root(files, prevFiles), rank), Segs(p)) == Some(ConvertNode(Leaf(p, DiffOf(files, prevFiles)), rank))
    {
      ConvertLookup(Root(files, prevFiles), rank, Segs(p));
    }
  }

  // ---------------------------------------------------------------------------
  // Open tabs

  /** `tabs.filter((t) => t !== path)`. */
  function Without(tabs: seq<string>, path: string): (r: seq<string>)
    ensures forall t :: t in r <==> t in tabs && t != path
    ensures Distinct(tabs) ==> Distinct(r)
    ensures path !in tabs ==> r == tabs
  {
    if tabs == [] then []
    else if tabs[0] == path then Without(tabs[1..], path)
    else
      var rest := Without(tabs[1..], path);
      assert Distinct(tabs) ==> Distinct(tabs[1..]) && tabs[0] !in tabs[1..] by {
        if Distinct(tabs) {
          forall i, j | 0 <= i < j < |tabs[1..]| ensures tabs[1..][i] != tabs[1..][j] {
            assert tabs[1..][i] == tabs[i + 1] && tabs[1..][j] == tabs[j + 1];
          }
          forall i | 0 <= i < |tabs[1..]| ensures tabs[1..][i] != tabs[0] {
            assert tabs[1..][i] == tabs[i + 1];
          }
        }
      }
      [tabs[0]] + rest
  }

  /** `tabs[tabs.length - 1] || null`. */
  function LastTab(tabs: seq<string>): (r: Option<string>)
    ensures r.Some? <==> tabs != [] && tabs[|tabs| - 1] != ""
    ensures r.Some? ==> r.value in tabs
  {
    if tabs != [] && tabs[|tabs| - 1] != "" then Some(tabs[|tabs| - 1]) else None
  }

  /** The explorer's selection and open tabs. */
  class Explorer {
    var selectedFile: Option<string>
    var openTabs: seq<string>

    /** The tabs never repeat, and a selected file is one of them. */
    predicate Valid()
      reads this
    {
      Distinct(openTabs) && (selectedFile.Some? ==> selectedFile.value in openTabs)
    }

    constructor()
      ensures selectedFile == None && openTabs == []
      ensures Valid()
    {
      selectedFile := None;
      openTabs := [];
    }

    /** The effect run when `files` changes: the first path, when it is not empty,
        becomes the selection and the only tab. */
    method FilesChanged(files: Files)
      requires Valid()
      modifies this
      ensures files != [] && files[0].0 != "" ==> selectedFile == Some(files[0].0) && openTabs == [files[0].0]
      ensures !(files != [] && files[0].0 != "") ==> selectedFile == old(selectedFile) && openTabs == old(openTabs)
      ensures Valid()
    {
      var keys := Keys(files);
      if keys != [] && keys[0] != "" {
        selectedFile := Some(keys[0]);
        openTabs := [keys[0]];
      }
    }

    /** `openFile`: select the path and add a tab for it unless it already has one. */
    method OpenFile(path: string)
      requires Valid()
      modifies this
      ensures selectedFile == Some(path)
      ensures openTabs == if path in old(openTabs) then old(openTabs) else old(openTabs) + [path]
      ensures Valid()
    {
      selectedFile := Some(path);
      if path !in openTabs {
        openTabs := openTabs + [path];
      }
    }

    /** `closeTab`: drop the path's tab; if it was selected, select the last remaining
        tab, or nothing. */
    method CloseTab(path: string)
      requires Valid()
      modifies this
      ensures openTabs == Without(old(openTabs), path)
      ensures selectedFile == if old(selectedFile) == Some(path) then LastTab(openTabs) else old(selectedFile)
      ensures Valid()
    {
      var newTabs := Without(openTabs, path);
      openTabs := newTabs;
      if selectedFile == Some(path) {
        selectedFile := LastTab(newTabs);
      }
    }

    /** The editor language of the selection; `'plaintext'` when nothing (or the empty
        path) is selected. */
    function SelectedLanguage(): (lang: string)
      reads this
      ensures lang == "plaintext" <==>
        selectedFile.None? || selectedFile.value == "" || Extension(selectedFile.value) !in Keys(EXTENSION_LANGUAGES)
      ensures selectedFile.Some? && selectedFile.value != "" ==> lang == Language(selectedFile.value)
    {
      if selectedFile.Some? && selectedFile.value != "" then Language(selectedFile.value) else "plaintext"
    }
  }
}
