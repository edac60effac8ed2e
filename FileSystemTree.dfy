/** The two flat-path to nested-tree converters handed to the in-browser container
    (`convertToFileSystemTree` in WebContainerRunner.tsx and in
    runTestsInWebContainer.ts), and the fallback that pulls the test report out of the
    test runner's standard output. A level of the tree (a JavaScript object keyed by
    entry name) is the list of its entries in insertion order. */
module FileSystemTree {
  import opened Wrappers
  import opened Assoc
  import opened JsString

  /** `{ file: { contents } }` or `{ directory: { ... } }`, with the key it is bound to. */
  datatype Entry = File(name: string, contents: string) | Directory(name: string, children: seq<Entry>)

  /** The position of the entry bound to `name` (`current[name]`). */
  function Find(level: seq<Entry>, name: string): (r: Option<nat>)
    ensures r.Some? ==> r.value < |level| && level[r.value].name == name
    ensures r.Some? ==> forall j :: 0 <= j < r.value ==> level[j].name != name
    ensures r.None? <==> forall j :: 0 <= j < |level| ==> level[j].name != name
  {
    if level == [] then None
    else if level[0].name == name then Some(0)
    else match Find(level[1..], name)
      case None => None
      case Some(k) => Some(k + 1)
  }

  lemma FindAppend(level: seq<Entry>, e: Entry, name: string)
    requires Find(level, e.name).None?
    ensures Find(level + [e], name) == if e.name == name then Some(|level|) else Find(level, name)
  {
    var l := level + [e];
    if e.name == name {
      assert l[|level|].name == name;
    } else if Find(level, name).None? {
      assert forall j :: 0 <= j < |l| ==> l[j].name != name by {
        forall j | 0 <= j < |l| ensures l[j].name != name {
          if j < |level| { assert l[j] == level[j]; }
        }
      }
    } else {
      var k := Find(level, name).value;
      assert l[k] == level[k];
      assert forall j :: 0 <= j < k ==> l[j] == level[j];
    }
  }

  lemma FindReplace(level: seq<Entry>, k: nat, e: Entry, name: string)
    requires k < |level| && Find(level, e.name) == Some(k)
    ensures Find(level[k := e], name) == Find(level, name)
  {
    var l := level[k := e];
    if Find(level, name).None? {
      assert e.name != name;
      forall j | 0 <= j < |l| ensures l[j].name != name {
        if j != k { assert l[j] == level[j]; }
      }
    } else {
      var m := Find(level, name).value;
      if m != k { assert e.name != name && l[m] == level[m]; }
      assert l[m].name == name;
      forall j | 0 <= j < m ensures l[j].name != name {
        if j != k { assert l[j] == level[j]; }
      }
      var m' := Find(l, name).value;
      assert m' == m;
    }
  }

  /** `current[name] = e`: an existing binding keeps its position, a new one is
      appended. */
  function Bind(level: seq<Entry>, name: string, e: Entry): (r: seq<Entry>)
    requires e.name == name
    ensures Find(r, name).Some? && r[Find(r, name).value] == e
    ensures forall n :: n != name ==> Find(r, n) == Find(level, n)
    ensures |r| >= |level| && forall j :: 0 <= j < |level| && level[j].name != name ==> r[j] == level[j]
  {
    match Find(level, name)
    case None =>
      FindAppend(level, e, name);
      assert forall n :: n != name ==> Find(level + [e], n) == Find(level, n) by {
        forall n | n != name ensures Find(level + [e], n) == Find(level, n) {
          FindAppend(level, e, n);
        }
      }
      level + [e]
    case Some(k) =>
      FindReplace(level, k, e, name);
      assert forall n :: n != name ==> Find(level[k := e], n) == Find(level, n) by {
        forall n | n != name ensures Find(level[k := e], n) == Find(level, n) {
          FindReplace(level, k, e, n);
        }
      }
      level[k := e]
  }

  /** The entry reached by following the segment list `s` through directories. */
  function Lookup(level: seq<Entry>, s: seq<string>): Option<Entry>
    decreases |s|
  {
    if s == [] then None
    else match Find(level, s[0])
      case None => None
      case Some(k) =>
        if |s| == 1 then Some(level[k])
        else if level[k].Directory? then Lookup(level[k].children, s[1..])
        else None
  }

  /** Looking up through a level after a binding. */
  lemma LookupBind(level: seq<Entry>, name: string, e: Entry, s: seq<string>)
    requires e.name == name && s != []
    ensures Lookup(Bind(level, name, e), s)
      == if s[0] != name then Lookup(level, s)
         else if |s| == 1 then Some(e)
         else if e.Directory? then Lookup(e.children, s[1..])
         else None
  {
    var r := Bind(level, name, e);
    if s[0] != name && Find(level, s[0]).Some? {
      var k := Find(level, s[0]).value;
      assert r[k] == level[k];
    }
  }

  predicate FileAt(level: seq<Entry>, s: seq<string>) {
    Lookup(level, s).Some? && Lookup(level, s).value.File?
  }

  /** The directory the cursor moves into for `part`: a missing entry is created as an
      empty directory, and a file leaves nowhere to move into. */
  function Below(level: seq<Entry>, part: string): (r: Option<seq<Entry>>)
    ensures r.None? <==> Find(level, part).Some? && level[Find(level, part).value].File?
  {
    match Find(level, part)
    case None => Some([])
    case Some(k) => if level[k].Directory? then Some(level[k].children) else None
  }

  /** Following a segment list that starts with a directory's name continues below it. */
  lemma LookupStep(level: seq<Entry>, parts: seq<string>, i: nat, j: nat)
    requires i + 1 < j <= |parts| && Below(level, parts[i]).Some?
    ensures Lookup(level, parts[i..j]) == Lookup(Below(level, parts[i]).value, parts[i + 1..j])
  {
    assert parts[i..j][0] == parts[i] && parts[i..j][1..] == parts[i + 1..j];
    if Find(level, parts[i]).None? {
      assert Lookup([], parts[i + 1..j]) == None;
    }
  }

  lemma LookupInto(level: seq<Entry>, s: seq<string>)
    requires |s| > 1 && Below(level, s[0]).Some?
    ensures Lookup(level, s) == Lookup(Below(level, s[0]).value, s[1..])
  {
    if Find(level, s[0]).None? {
      LookupEmpty(s[1..]);
    }
  }

  lemma LookupEmpty(s: seq<string>)
    ensures Lookup([], s) == None
  {
  }

  // ---------------------------------------------------------------------------
  // WebContainerRunner.tsx: conflicts are errors

  const CONFLICT: string := "Conflicting file/directory at path: "

  /** `parts[parts.length - 1]`, which is `undefined` (the key "undefined") when the
      path has no segments. */
  function FileName(parts: seq<string>): string {
    if parts == [] then "undefined" else parts[|parts| - 1]
  }

  /** The cursor walk for one path from segment `i` on: every segment but the last
      names a directory to enter (created when missing, an error when it is a file),
      and the last is bound to a file with the contents. */
  function Mount(level: seq<Entry>, parts: seq<string>, i: nat, contents: string): Result<seq<Entry>>
    requires i <= |parts|
    decreases |parts| - i
  {
    if i + 1 >= |parts| then Ok(Bind(level, FileName(parts), File(FileName(parts), contents)))
    else match Below(level, parts[i])
      case None => Err(CONFLICT + Join(parts[..i + 1], '/'))
      case Some(children) =>
        match Mount(children, parts, i + 1, contents)
        case Err(m) => Err(m)
        case Ok(sub) => Ok(Bind(level, parts[i], Directory(parts[i], sub)))
  }

  /** The walk fails exactly when one of the path's strict prefixes is a file. */
  lemma {:induction false} MountFails(level: seq<Entry>, parts: seq<string>, i: nat, contents: string)
    requires i <= |parts|
    ensures Mount(level, parts, i, contents).Err? <==> exists j :: i < j < |parts| && FileAt(level, parts[i..j])
    decreases |parts| - i
  {
    if i + 1 < |parts| {
      assert parts[i..i + 1] == [parts[i]];
      match Below(level, parts[i])
      case None =>
        assert FileAt(level, parts[i..i + 1]);
      case Some(children) =>
        MountFails(children, parts, i + 1, contents);
        assert !FileAt(level, parts[i..i + 1]);
        if Mount(children, parts, i + 1, contents).Err? {
          var j :| i + 1 < j < |parts| && FileAt(children, parts[i + 1..j]);
          LookupStep(level, parts, i, j);
          assert FileAt(level, parts[i..j]);
        }
        if exists j :: i < j < |parts| && FileAt(level, parts[i..j]) {
          var j :| i < j < |parts| && FileAt(level, parts[i..j]);
          LookupStep(level, parts, i, j);
          assert FileAt(children, parts[i + 1..j]);
        }
    }
  }

  /** `parts[i..j]` is the shortest prefix from segment `i` on that is a file. */
  predicate FirstFile(level: seq<Entry>, parts: seq<string>, i: nat, j: nat) {
    && i < j < |parts|
    && FileAt(level, parts[i..j])
    && forall j' :: i < j' < j ==> !FileAt(level, parts[i..j'])
  }

  /** The error names the shortest prefix that is a file. */
  lemma {:induction false} MountMessage(level: seq<Entry>, parts: seq<string>, i: nat, contents: string)
    requires i <= |parts| && Mount(level, parts, i, contents).Err?
    ensures exists j: nat :: FirstFile(level, parts, i, j) && Mount(level, parts, i, contents).message == CONFLICT + Join(parts[..j], '/')
    decreases |parts| - i
  {
    assert i + 1 < |parts|;
    assert parts[i..i + 1] == [parts[i]];
    match Below(level, parts[i])
    case None =>
      assert FirstFile(level, parts, i, i + 1);
    case Some(children) =>
      MountMessage(children, parts, i + 1, contents);
      var j: nat :| FirstFile(children, parts, i + 1, j) && Mount(children, parts, i + 1, contents).message == CONFLICT + Join(parts[..j], '/');
      LookupStep(level, parts, i, j);
      forall j' | i < j' < j ensures !FileAt(level, parts[i..j']) {
        if j' > i + 1 { LookupStep(level, parts, i, j'); }
      }
      assert FirstFile(level, parts, i, j);
  }

  /** A successful walk binds the last segment to a file holding exactly the contents,
      replacing whatever was there, and leaves a directory at every strict prefix. */
  lemma {:induction false} MountPlaces(level: seq<Entry>, parts: seq<string>, i: nat, contents: string)
    requires i < |parts| && Mount(level, parts, i, contents).Ok?
    ensures Lookup(Mount(level, parts, i, contents).value, parts[i..]) == Some(File(parts[|parts| - 1], contents))
    ensures forall j :: i < j < |parts| ==>
      Lookup(Mount(level, parts, i, contents).value, parts[i..j]).Some? &&
      Lookup(Mount(level, parts, i, contents).value, parts[i..j]).value.Directory?
    decreases |parts| - i
  {
    var t := Mount(level, parts, i, contents).value;
    if i + 1 >= |parts| {
      LookupBind(level, parts[i], File(parts[i], contents), parts[i..]);
    } else {
      var children := Below(level, parts[i]).value;
      var sub := Mount(children, parts, i + 1, contents).value;
      var d := Directory(parts[i], sub);
      MountPlaces(children, parts, i + 1, contents);
      LookupBind(level, parts[i], d, parts[i..]);
      assert parts[i..][1..] == parts[i + 1..];
      forall j | i < j < |parts| ensures Lookup(t, parts[i..j]).Some? && Lookup(t, parts[i..j]).value.Directory? {
        LookupBind(level, parts[i], d, parts[i..j]);
        assert parts[i..j][0] == parts[i];
        if j > i + 1 { assert parts[i..j][1..] == parts[i + 1..j]; }
      }
    }
  }

  /** Nothing apart from the walked path changes. */
  predicate Apart(s: seq<string>, u: seq<string>) {
    exists m :: 0 <= m < |s| && m < |u| && s[m] != u[m]
  }

  lemma {:induction false} MountFrame(level: seq<Entry>, parts: seq<string>, i: nat, contents: string, s: seq<string>)
    requires i < |parts| && Mount(level, parts, i, contents).Ok? && Apart(s, parts[i..])
    ensures Lookup(Mount(level, parts, i, contents).value, s) == Lookup(level, s)
    decreases |parts| - i
  {
    var m :| 0 <= m < |s| && m < |parts[i..]| && s[m] != parts[i..][m];
    if s[0] != parts[i] {
      if i + 1 >= |parts| {
        LookupBind(level, parts[i], File(parts[i], contents), s);
      } else {
        var children := Below(level, parts[i]).value;
        var sub := Mount(children, parts, i + 1, contents).value;
        LookupBind(level, parts[i], Directory(parts[i], sub), s);
      }
    } else {
      assert 0 < m && i + m < |parts|;
      var children := Below(level, parts[i]).value;
      var sub := Mount(children, parts, i + 1, contents).value;
      assert s[1..][m - 1] != parts[i + 1..][m - 1];
      MountFrame(children, parts, i + 1, contents, s[1..]);
      LookupBind(level, parts[i], Directory(parts[i], sub), s);
      LookupInto(level, s);
    }
  }

  /** A path with no segments mounts a file named "undefined" at the top level. */
  lemma MountNoSegments(level: seq<Entry>, contents: string)
    ensures Mount(level, [], 0, contents).Ok?
    ensures Lookup(Mount(level, [], 0, contents).value, ["undefined"]) == Some(File("undefined", contents))
  {
    LookupBind(level, "undefined", File("undefined", contents), ["undefined"]);
  }

  /** `Object.entries(files).forEach(...)` from a given tree on: the entries are
      mounted in order and the first error ends the conversion. */
  function MountFrom(tree: seq<Entry>, files: AList<string, string>): Result<seq<Entry>>
    decreases |files|
  {
    if files == [] then Ok(tree)
    else match Mount(tree, Segments(files[0].0, '/'), 0, files[0].1)
      case Err(m) => Err(m)
      case Ok(t) => MountFrom(t, files[1..])
  }

  /** `convertToFileSystemTree` of WebContainerRunner.tsx; `Err` is the thrown error. */
  method ConvertStrict(files: AList<string, string>) returns (r: Result<seq<Entry>>)
    ensures r == MountFrom([], files)
  {
    var tree: seq<Entry> := [];
    var k := 0;
    while k < |files|
      invariant 0 <= k <= |files|
      invariant MountFrom(tree, files[k..]) == MountFrom([], files)
    {
      var (path, contents) := files[k];
      var parts := Segments(path, '/');
      assert files[k..][1..] == files[k + 1..];
      var step := Mount(tree, parts, 0, contents);
      if step.Err? {
        return Err(step.message);
      }
      tree := step.value;
      k := k + 1;
    }
    r := Ok(tree);
  }

  /** The entry mounted last decides what its path holds: a later path with the same
      segments overwrites an earlier one. */
  lemma {:induction false} LaterWins(tree: seq<Entry>, files: AList<string, string>, path: string, contents: string)
    requires Segments(path, '/') != [] && MountFrom(tree, files + [(path, contents)]).Ok?
    ensures var segs := Segments(path, '/');
      Lookup(MountFrom(tree, files + [(path, contents)]).value, segs) == Some(File(segs[|segs| - 1], contents))
    decreases |files|
  {
    var segs := Segments(path, '/');
    if files == [] {
      assert [(path, contents)][1..] == [];
      MountPlaces(tree, segs, 0, contents);
      assert segs[0..] == segs;
    } else {
      assert (files + [(path, contents)])[1..] == files[1..] + [(path, contents)];
      LaterWins(Mount(tree, Segments(files[0].0, '/'), 0, files[0].1).value, files[1..], path, contents);
    }
  }

  // ---------------------------------------------------------------------------
  // runTestsInWebContainer.ts: a file met on the way is passed over

  /** The walk for one path from segment `i` on: the last segment is bound to a file
      with the contents; an earlier one moves the cursor into its directory (created
      when missing), or, when it is a file, leaves the cursor where it is. A path with
      no segments adds nothing. */
  function Place(level: seq<Entry>, parts: seq<string>, i: nat, contents: string): seq<Entry>
    decreases |parts| - i
  {
    if i >= |parts| then level
    else if i == |parts| - 1 then Bind(level, parts[i], File(parts[i], contents))
    else match Below(level, parts[i])
      case None => Place(level, parts, i + 1, contents)
      case Some(children) => Bind(level, parts[i], Directory(parts[i], Place(children, parts, i + 1, contents)))
  }

  /** Where the strict walk succeeds, the lenient walk builds the same tree. */
  lemma {:induction false} PlaceAgrees(level: seq<Entry>, parts: seq<string>, i: nat, contents: string)
    requires i < |parts| && Mount(level, parts, i, contents).Ok?
    ensures Place(level, parts, i, contents) == Mount(level, parts, i, contents).value
    decreases |parts| - i
  {
    if i + 1 < |parts| {
      PlaceAgrees(Below(level, parts[i]).value, parts, i + 1, contents);
    }
  }

  /** Without a file on the way, the lenient walk binds the path to its file and leaves
      a directory at every strict prefix. */
  lemma PlacePlaces(level: seq<Entry>, parts: seq<string>, contents: string)
    requires parts != [] && forall j :: 0 < j < |parts| ==> !FileAt(level, parts[..j])
    ensures Lookup(Place(level, parts, 0, contents), parts) == Some(File(parts[|parts| - 1], contents))
    ensures forall j :: 0 < j < |parts| ==>
      Lookup(Place(level, parts, 0, contents), parts[..j]).Some? &&
      Lookup(Place(level, parts, 0, contents), parts[..j]).value.Directory?
  {
    assert parts[0..] == parts;
    assert forall j :: 0 < j < |parts| ==> parts[0..j] == parts[..j];
    MountFails(level, parts, 0, contents);
    PlaceAgrees(level, parts, 0, contents);
    MountPlaces(level, parts, 0, contents);
  }

  /** A file met before the last segment keeps the cursor at its level: `a` then `a/b`
      leaves `a` a file and puts `b` beside it, where the strict walk reports a
      conflict at `a`. */
  lemma FileKeepsLevel(a: string, b: string, c1: string, c2: string)
    requires a != b
    ensures Place(Place([], [a], 0, c1), [a, b], 0, c2) == [File(a, c1), File(b, c2)]
    ensures Mount(Place([], [a], 0, c1), [a, b], 0, c2) == Err(CONFLICT + a)
  {
    var r1 := Place([], [a], 0, c1);
    assert r1 == [File(a, c1)];
    assert Find(r1, a) == Some(0) && Find(r1, b) == None;
    assert Place(r1, [a, b], 0, c2) == Place(r1, [a, b], 1, c2);
    assert [a, b][..1] == [a];
  }

  /** The lenient conversion from a given tree on: every entry is placed, in order. */
  function PlaceFrom(tree: seq<Entry>, files: AList<string, string>): seq<Entry>
    decreases |files|
  {
    if files == [] then tree
    else PlaceFrom(Place(tree, Segments(files[0].0, '/'), 0, files[0].1), files[1..])
  }

  /** `convertToFileSystemTree` of runTestsInWebContainer.ts. */
  method ConvertLenient(files: AList<string, string>) returns (tree: seq<Entry>)
    ensures tree == PlaceFrom([], files)
  {
    tree := [];
    var k := 0;
    while k < |files|
      invariant 0 <= k <= |files|
      invariant PlaceFrom(tree, files[k..]) == PlaceFrom([], files)
    {
      var (path, contents) := files[k];
      assert files[k..][1..] == files[k + 1..];
      tree := Place(tree, Segments(path, '/'), 0, contents);
      k := k + 1;
    }
  }

  /** When every path has a segment and the strict conversion succeeds, both
      conversions give the same tree. */
  lemma {:induction false} ConversionsAgree(tree: seq<Entry>, files: AList<string, string>)
    requires forall k :: 0 <= k < |files| ==> Segments(files[k].0, '/') != []
    requires MountFrom(tree, files).Ok?
    ensures PlaceFrom(tree, files) == MountFrom(tree, files).value
    decreases |files|
  {
    if files != [] {
      var segs := Segments(files[0].0, '/');
      PlaceAgrees(tree, segs, 0, files[0].1);
      assert forall k :: 0 <= k < |files[1..]| ==> files[1..][k] == files[k + 1];
      ConversionsAgree(Mount(tree, segs, 0, files[0].1).value, files[1..]);
    }
  }

  // ---------------------------------------------------------------------------
  // The test report read from standard output

  function FirstIndex(s: string, c: char): (r: Option<nat>)
    ensures r.Some? ==> r.value < |s| && s[r.value] == c && c !in s[..r.value]
    ensures r.None? <==> c !in s
  {
    if s == [] then None
    else if s[0] == c then Some(0)
    else match FirstIndex(s[1..], c)
      case None => None
      case Some(k) =>
        assert s[..k + 1] == [s[0]] + s[1..][..k];
        Some(k + 1)
  }

  function LastIndex(s: string, c: char): (r: Option<nat>)
    ensures r.Some? ==> r.value < |s| && s[r.value] == c && c !in s[r.value + 1..]
    ensures r.None? <==> c !in s
  {
    if s == [] then None
    else if s[|s| - 1] == c then Some(|s| - 1)
    else match LastIndex(s[..|s| - 1], c)
      case None => None
      case Some(k) =>
        assert s[k + 1..] == s[..|s| - 1][k + 1..] + [s[|s| - 1]];
        Some(k)
  }

  const NO_RESULTS: string := "Could not parse test results. Output: "

  /** No `}` follows any `{` when the last `}` comes before the first `{`, or one of
      them is missing. */
  lemma NoBracePair(stdout: string)
    requires match (FirstIndex(stdout, '{'), LastIndex(stdout, '}'))
      case (Some(i), Some(j)) => j <= i
      case _ => true
    ensures forall i', j' :: 0 <= i' < j' < |stdout| && stdout[i'] == '{' ==> stdout[j'] != '}'
  {
    var first := FirstIndex(stdout, '{');
    var last := LastIndex(stdout, '}');
    forall i', j' | 0 <= i' < j' < |stdout| && stdout[i'] == '{' ensures stdout[j'] != '}' {
      assert stdout[i'] in stdout && stdout[j'] in stdout;
      if first.Some? && last.Some? {
        var i := first.value;
        var j := last.value;
        if j' > j { assert stdout[j + 1..][j' - j - 1] == stdout[j']; }
      }
    }
  }

  /** `stdout.match(/\{[\s\S]*\}/)`: the leftmost, longest stretch from a `{` to a
      `}`, which runs from the first `{` to the last `}`; with no `}` after the
      first `{` the error is thrown. */
  function JsonSlice(stdout: string): (r: Result<string>)
    ensures r.Ok? <==> exists i, j :: 0 <= i < j < |stdout| && stdout[i] == '{' && stdout[j] == '}'
    ensures r.Ok? ==> exists i, j ::
      && 0 <= i < j < |stdout| && stdout[i] == '{' && stdout[j] == '}'
      && r.value == stdout[i..j + 1] && '{' !in stdout[..i] && '}' !in stdout[j + 1..]
    ensures r.Err? ==> r.message == NO_RESULTS + stdout
  {
    match (FirstIndex(stdout, '{'), LastIndex(stdout, '}'))
    case (Some(i), Some(j)) =>
      if i < j then Ok(stdout[i..j + 1])
      else
        NoBracePair(stdout);
        Err(NO_RESULTS + stdout)
    case _ =>
      NoBracePair(stdout);
      Err(NO_RESULTS + stdout)
  }
}
