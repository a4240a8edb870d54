/** The patch tooling of the build (scripts/patch.py): which entries of the
    patch directory are applied with git and which are copied, the sorted
    list of entries, the reading of `git status --porcelain` lines, the
    binary-file test and the name each modified file is saved under. The
    file system and git are oracles. */
module PatchScript {
  import opened Wrappers
  import opened Text

  // ---------------------------------------------------------------------------
  // Applying the patch directory
  // ---------------------------------------------------------------------------

  /** An entry is applied with `git apply` iff its name ends in `.patch` or
      `.diff`; every other entry is a file copied into the source tree. */
  predicate IsPatch(name: string) {
    EndsWith(name, ".patch") || EndsWith(name, ".diff")
  }

  /** One path found under the patch directory, relative to it. */
  datatype Entry = Entry(rel: string, isFile: bool)

  /** `_get_patches_list` keeps files whose own name does not start with a dot. */
  predicate Listed(e: Entry) {
    e.isFile && !StartsWith(BaseName(e.rel), ".")
  }

  /** The listed paths, in the order the walk met them. */
  function ListedPaths(es: seq<Entry>): (r: seq<string>)
    ensures forall x :: x in r <==> exists i :: 0 <= i < |es| && Listed(es[i]) && es[i].rel == x
  {
    if es == [] then []
    else
      var init := ListedPaths(es[..|es| - 1]);
      var e := es[|es| - 1];
      assert forall i :: 0 <= i < |es| - 1 ==> es[..|es| - 1][i] == es[i];
      if Listed(e) then init + [e.rel] else init
  }

  /** Python's `str` ordering: code point by code point, a prefix first. */
  predicate LexLe(a: string, b: string)
    decreases |a|
  {
    a == [] || (b != [] && (a[0] < b[0] || (a[0] == b[0] && LexLe(a[1..], b[1..]))))
  }

  lemma {:induction false} LexReflexive(a: string)
    ensures LexLe(a, a)
    decreases |a|
  {
    if a != [] {
      LexReflexive(a[1..]);
    }
  }

  lemma {:induction false} LexTotal(a: string, b: string)
    ensures LexLe(a, b) || LexLe(b, a)
    decreases |a|
  {
    if a != [] && b != [] && a[0] == b[0] {
      LexTotal(a[1..], b[1..]);
    }
  }

  lemma {:induction false} LexAntisymmetric(a: string, b: string)
    requires LexLe(a, b) && LexLe(b, a)
    ensures a == b
    decreases |a|
  {
    if a != [] {
      LexAntisymmetric(a[1..], b[1..]);
      assert a == [a[0]] + a[1..] && b == [b[0]] + b[1..];
    }
  }

  lemma {:induction false} LexTransitive(a: string, b: string, c: string)
    requires LexLe(a, b) && LexLe(b, c)
    ensures LexLe(a, c)
    decreases |a|
  {
    if a != [] && a[0] == b[0] && b[0] == c[0] {
      LexTransitive(a[1..], b[1..], c[1..]);
    }
  }

  predicate Sorted(s: seq<string>) {
    forall i, j :: 0 <= i < j < |s| ==> LexLe(s[i], s[j])
  }

  /** `x` placed in front of the first element it does not exceed. */
  function Insert(x: string, s: seq<string>): (r: seq<string>)
    requires Sorted(s)
    ensures Sorted(r) && multiset(r) == multiset(s) + multiset{x}
  {
    if s == [] then [x]
    else if LexLe(x, s[0]) then
      forall j | 0 <= j < |s| ensures LexLe(x, s[j]) {
        if j > 0 { LexTransitive(x, s[0], s[j]); }
      }
      [x] + s
    else
      LexTotal(x, s[0]);
      var t := Insert(x, s[1..]);
      assert s == [s[0]] + s[1..];
      forall y | y in t ensures LexLe(s[0], y) {
        assert y in multiset(t);
        if y != x {
          assert y in multiset(s[1..]);
          var j :| 0 <= j < |s[1..]| && s[1..][j] == y;
          assert s[j + 1] == y;
        }
      }
      [s[0]] + t
  }

  /** `list.sort()` on strings: sorted, and a permutation of its input. */
  function SortPaths(s: seq<string>): (r: seq<string>)
    ensures Sorted(r) && multiset(r) == multiset(s)
  {
    if s == [] then []
    else
      assert s == s[..|s| - 1] + [s[|s| - 1]];
      Insert(s[|s| - 1], SortPaths(s[..|s| - 1]))
  }

  /** The sort leaves no freedom: two sorted lists holding the same paths are
      equal, so the list does not depend on the order of the walk. */
  lemma {:induction false} SortedUnique(a: seq<string>, b: seq<string>)
    requires Sorted(a) && Sorted(b) && multiset(a) == multiset(b)
    ensures a == b
    decreases |a|
  {
    if a != [] {
      SameHead(a, b);
      assert a == [a[0]] + a[1..] && b == [b[0]] + b[1..];
      assert multiset(a) == multiset{a[0]} + multiset(a[1..]);
      assert multiset(b) == multiset{b[0]} + multiset(b[1..]);
      assert multiset(a[1..]) == multiset(a) - multiset{a[0]};
      assert multiset(b[1..]) == multiset(b) - multiset{b[0]};
      SortedTail(a);
      SortedTail(b);
      SortedUnique(a[1..], b[1..]);
    }
  }

  lemma SortedTail(a: seq<string>)
    requires Sorted(a) && a != []
    ensures Sorted(a[1..])
  {
    forall i, j | 0 <= i < j < |a| - 1 ensures LexLe(a[1..][i], a[1..][j]) {
      assert a[1..][i] == a[i + 1] && a[1..][j] == a[j + 1];
    }
  }

  /** Two sorted lists with the same elements start with the same element. */
  lemma SameHead(a: seq<string>, b: seq<string>)
    requires Sorted(a) && Sorted(b) && multiset(a) == multiset(b) && a != []
    ensures b != [] && a[0] == b[0]
  {
    assert a[0] in multiset(b);
    assert b[0] in multiset(a);
    var i :| 0 <= i < |b| && b[i] == a[0];
    var j :| 0 <= j < |a| && a[j] == b[0];
    LexReflexive(a[0]);
    LexReflexive(b[0]);
    assert LexLe(b[0], a[0]) by { if i > 0 { assert LexLe(b[0], b[i]); } }
    assert LexLe(a[0], b[0]) by { if j > 0 { assert LexLe(a[0], a[j]); } }
    LexAntisymmetric(a[0], b[0]);
  }

  /** `_get_patches_list`: the files of the patch directory without dot
      files, collected in walk order and then sorted. */
  method GetPatchesList(entries: seq<Entry>) returns (patches: seq<string>)
    ensures Sorted(patches) && multiset(patches) == multiset(ListedPaths(entries))
  {
    patches := [];
    for i := 0 to |entries|
      invariant patches == ListedPaths(entries[..i])
    {
      assert entries[..i + 1][..i] == entries[..i];
      if Listed(entries[i]) {
        patches := patches + [entries[i].rel];
      }
    }
    assert entries[..|entries|] == entries;
    patches := SortPaths(patches);
  }

  /** What the file system and git report while the patches are applied. */
  datatype ApplyEnv = ApplyEnv(
    present: string -> bool,
    copyOk: string -> bool,
    applyOk: string -> bool,
    reverseOk: string -> bool)

  datatype Action = Missing(name: string) | Copied(name: string) | PatchApplied(name: string) | AlreadyApplied(name: string)

  datatype ApplyResult = ApplyResult(actions: seq<Action>, failed: Option<string>)

  /** One entry of `apply_patches`: a missing entry is skipped, a copied file
      or a patch that applies succeeds, a patch that applies in reverse was
      already applied; any other outcome (None) ends the run. */
  function ApplyStep(env: ApplyEnv, name: string): Option<Action> {
    if !env.present(name) then Some(Missing(name))
    else if !IsPatch(name) then (if env.copyOk(name) then Some(Copied(name)) else None)
    else if env.applyOk(name) then Some(PatchApplied(name))
    else if env.reverseOk(name) then Some(AlreadyApplied(name))
    else None
  }

  function ApplyAll(env: ApplyEnv, ps: seq<string>): ApplyResult {
    if ps == [] then ApplyResult([], None)
    else match ApplyStep(env, ps[0])
      case None => ApplyResult([], Some(ps[0]))
      case Some(a) =>
        var rest := ApplyAll(env, ps[1..]);
        ApplyResult([a] + rest.actions, rest.failed)
  }

  /** The loop of `apply_patches` over the sorted list. */
  method ApplyPatches(env: ApplyEnv, patches: seq<string>) returns (result: ApplyResult)
    ensures result == ApplyAll(env, patches)
  {
    var actions := [];
    for i := 0 to |patches|
      invariant ApplyAll(env, patches) == ApplyResult(actions + ApplyAll(env, patches[i..]).actions, ApplyAll(env, patches[i..]).failed)
    {
      assert patches[i..][1..] == patches[i + 1..];
      var step := ApplyStep(env, patches[i]);
      if step.None? {
        return ApplyResult(actions, Some(patches[i]));
      }
      actions := actions + [step.value];
    }
    result := ApplyResult(actions, None);
  }

  /** Applying stops at the first failing entry: every entry before it
      succeeded, in order, and nothing after it is attempted. */
  lemma {:induction false} StopsAtFirstFailure(env: ApplyEnv, ps: seq<string>)
    ensures var r := ApplyAll(env, ps);
      |r.actions| <= |ps|
      && (forall i :: 0 <= i < |r.actions| ==> ApplyStep(env, ps[i]) == Some(r.actions[i]))
      && (r.failed.None? <==> |r.actions| == |ps|)
      && (r.failed.Some? ==> r.failed.value == ps[|r.actions|] && ApplyStep(env, ps[|r.actions|]).None?)
  {
    if ps != [] && ApplyStep(env, ps[0]).Some? {
      StopsAtFirstFailure(env, ps[1..]);
      var r := ApplyAll(env, ps);
      var rest := ApplyAll(env, ps[1..]);
      forall i | 0 <= i < |r.actions| ensures ApplyStep(env, ps[i]) == Some(r.actions[i]) {
        if i > 0 { assert r.actions[i] == rest.actions[i - 1] && ps[i] == ps[1..][i - 1]; }
      }
    }
  }

  // ---------------------------------------------------------------------------
  // Saving the modified files of the source tree
  // ---------------------------------------------------------------------------

  const Rename: string := " -> "

  /** One line of `git status --porcelain`: None for a blank line, otherwise
      the two status characters and the path from the fourth character on,
      stripped, taking the new name of a rename. */
  function ParseStatusLine(line: string): (r: Option<(string, string)>)
    ensures r.None? <==> forall i :: 0 <= i < |line| ==> IsPySpace(line[i])
    ensures r.Some? ==> r.value.0 == SliceTo(line, 2)
  {
    BlankIffAllSpace(Py, line);
    if PyStrip(line) == [] then None
    else
      var raw := PyStrip(SliceFrom(line, 3));
      var path := if Contains(raw, Rename) then SecondField(raw, Rename) else raw;
      Some((SliceTo(line, 2), path))
  }

  /** A path that `strip()` leaves alone. */
  predicate Clean(p: string) {
    p != [] && !IsPySpace(p[0]) && !IsPySpace(p[|p| - 1])
  }

  lemma StripClean(p: string)
    requires Clean(p)
    ensures PyStrip(p) == p
  {
    assert !IsSpace(Py, p[0]);
    assert TrimLeft(Py, p) == p;
    assert !IsSpace(Py, p[|p| - 1]);
  }

  /** A status line for an ordinary change reads back as its status and path. */
  lemma ParseChangeLine(status: string, path: string)
    requires |status| == 2 && Clean(path) && !Contains(path, Rename)
    ensures ParseStatusLine(status + " " + path) == Some((status, path))
  {
    var line := status + " " + path;
    assert !IsPySpace(line[3]);
    assert SliceFrom(line, 3) == path;
    assert SliceTo(line, 2) == status;
    StripClean(path);
  }

  /** A status line for a rename reads back as its status and the new name. */
  lemma ParseRenameLine(status: string, before: string, after: string)
    requires |status| == 2 && Clean(before) && '>' !in before && Clean(after) && !Contains(after, Rename)
    ensures ParseStatusLine(status + " " + before + Rename + after) == Some((status, after))
  {
    var raw := before + Rename + after;
    var line := status + " " + raw;
    assert line == status + " " + before + Rename + after;
    assert !IsPySpace(line[3]);
    assert SliceFrom(line, 3) == raw;
    assert SliceTo(line, 2) == status;
    assert Clean(raw);
    StripClean(raw);
    RenameSplits(before, after);
  }

  lemma RenameSplits(before: string, after: string)
    requires Clean(before) && '>' !in before && !Contains(after, Rename)
    ensures Contains(before + Rename + after, Rename) && SecondField(before + Rename + after, Rename) == after
  {
    var raw := before + Rename + after;
    assert OccursAt(raw, Rename, |before|);
    forall j: nat | j < |before| ensures !OccursAt(raw, Rename, j) {
      if j + 2 < |before| {
        assert raw[j + 2] == before[j + 2] != Rename[2];
      } else if j + 2 == |before| {
        assert raw[j + 2] == Rename[0] != Rename[2];
      } else {
        assert raw[j] == before[j] != Rename[0];
      }
    }
    assert IndexOf(raw, Rename) == Some(|before|);
    assert raw[|before| + |Rename|..] == after;
  }

  const BinaryExtensions: seq<string> := [
    ".png", ".jpg", ".jpeg", ".gif", ".ico", ".icns", ".svg", ".car",
    ".pdf", ".woff", ".woff2", ".ttf", ".eot", ".zip", ".gz", ".tar",
    ".xz", ".bz2", ".7z", ".jar", ".so", ".dll", ".exe", ".dylib",
    ".node", ".bin", ".dat", ".db", ".sqlite", ".pak", ".crx", ".rdb"]

  /** A file is binary when its lower-cased path ends in one of the extensions. */
  predicate IsBinary(path: string) {
    EndsWithAny(AsciiLower(path), BinaryExtensions)
  }

  lemma LowerIdempotent(s: string)
    ensures AsciiLower(AsciiLower(s)) == AsciiLower(s)
  {
  }

  /** The test ignores case: a path and its lower-cased form agree. */
  lemma BinaryIgnoresCase(path: string)
    ensures IsBinary(AsciiLower(path)) <==> IsBinary(path)
  {
    LowerIdempotent(path);
  }

  /** How the binary extensions end: none with `h`, and none with `diff`. */
  lemma ExtensionEndings()
    ensures forall i :: 0 <= i < |BinaryExtensions| ==>
      var e := BinaryExtensions[i];
      |e| >= 3 && e[|e| - 1] != 'h' && (e[|e| - 1] == 'f' ==> |e| >= 4 && e[|e| - 4] != 'd')
  {
  }

  /** A file saved as binary is never taken for a patch when the directory is
      applied again: no binary extension ends the way `.patch` or `.diff` does. */
  lemma BinaryNeverApplied(path: string)
    requires IsBinary(path)
    ensures !IsPatch(path)
  {
    var l := AsciiLower(path);
    var i :| 0 <= i < |BinaryExtensions| && EndsWith(l, BinaryExtensions[i]);
    var e := BinaryExtensions[i];
    ExtensionEndings();
    LowerEnding(path, l, e);
  }

  lemma LowerEnding(path: string, l: string, e: string)
    requires l == AsciiLower(path) && EndsWith(l, e)
    requires |e| >= 3 && e[|e| - 1] != 'h' && (e[|e| - 1] == 'f' ==> |e| >= 4 && e[|e| - 4] != 'd')
    ensures !IsPatch(path)
  {
    var n := |path|;
    assert l[n - |e|..][|e| - 1] == l[n - 1];
    assert path[n - 1] != 'h';
    assert n >= 6 ==> path[n - 6..][5] == path[n - 1];
    if e[|e| - 1] == 'f' {
      assert l[n - |e|..][|e| - 4] == l[n - 4];
      assert path[n - 4] != 'd';
    } else {
      assert path[n - 1] != 'f';
    }
    assert n >= 4 ==> path[n - 4..][3] == path[n - 1] && path[n - 4..][0] == path[n - 4];
  }

  /** One entry of the modified-file list. */
  datatype Modified = Modified(path: string, status: string, isBinary: bool)

  /** The source tree as the scan sees it: which paths are directories, and
      the files under a directory, relative to the source root. */
  datatype Tree = Tree(isDir: string -> bool, filesUnder: string -> seq<string>)

  function UntrackedFile(p: string): Modified {
    Modified(p, "??", IsBinary(p))
  }

  function DirectoryFiles(fs: seq<string>): seq<Modified> {
    seq(|fs|, i requires 0 <= i < |fs| => UntrackedFile(fs[i]))
  }

  /** The entries one status line contributes: none for a blank line, every
      file under an untracked directory, or the path itself. */
  function LineEntries(tree: Tree, line: string): seq<Modified> {
    match ParseStatusLine(line)
    case None => []
    case Some((status, path)) =>
      if tree.isDir(path) then
        DirectoryFiles(tree.filesUnder(path))
      else [Modified(path, status, IsBinary(path))]
  }

  function ModifiedFiles(tree: Tree, lines: seq<string>): seq<Modified> {
    if lines == [] then []
    else ModifiedFiles(tree, lines[..|lines| - 1]) + LineEntries(tree, lines[|lines| - 1])
  }

  /** Each entry's binary flag is the test applied to its own path. */
  lemma {:induction false} BinaryFlagsAgree(tree: Tree, lines: seq<string>)
    ensures forall f :: f in ModifiedFiles(tree, lines) ==> f.isBinary == IsBinary(f.path)
  {
    if lines != [] {
      var init := lines[..|lines| - 1];
      BinaryFlagsAgree(tree, init);
      LineFlagsAgree(tree, lines[|lines| - 1]);
      assert ModifiedFiles(tree, lines) == ModifiedFiles(tree, init) + LineEntries(tree, lines[|lines| - 1]);
    }
  }

  lemma LineFlagsAgree(tree: Tree, line: string)
    ensures forall f :: f in LineEntries(tree, line) ==> f.isBinary == IsBinary(f.path)
  {
    var parsed := ParseStatusLine(line);
    if parsed.Some? {
      var path := parsed.value.1;
      if tree.isDir(path) {
        assert LineEntries(tree, line) == DirectoryFiles(tree.filesUnder(path));
        DirectoryFlags(tree.filesUnder(path));
      } else {
        assert LineEntries(tree, line) == [Modified(path, parsed.value.0, IsBinary(path))];
      }
    }
  }

  lemma DirectoryFlags(fs: seq<string>)
    ensures forall f :: f in DirectoryFiles(fs) ==> f.isBinary == IsBinary(f.path)
  {
    forall f | f in DirectoryFiles(fs) ensures f.isBinary == IsBinary(f.path) {
      var i :| 0 <= i < |fs| && DirectoryFiles(fs)[i] == f;
    }
  }

  /** The scan loop of `update_patches` over the status lines. */
  method ScanStatus(tree: Tree, lines: seq<string>) returns (files: seq<Modified>)
    ensures files == ModifiedFiles(tree, lines)
  {
    files := [];
    for i := 0 to |lines|
      invariant files == ModifiedFiles(tree, lines[..i])
    {
      assert lines[..i + 1][..i] == lines[..i];
      var es := ScanLine(tree, lines[i]);
      files := files + es;
    }
    assert lines[..|lines|] == lines;
  }

  /** One line of the scan, walking the directory an untracked line names. */
  method ScanLine(tree: Tree, line: string) returns (es: seq<Modified>)
    ensures es == LineEntries(tree, line)
  {
    var parsed := ParseStatusLine(line);
    if parsed.None? {
      return [];
    }
    var path := parsed.value.1;
    if !tree.isDir(path) {
      return [Modified(path, parsed.value.0, IsBinary(path))];
    }
    es := WalkDirectory(tree.filesUnder(path));
  }

  method WalkDirectory(fs: seq<string>) returns (es: seq<Modified>)
    ensures es == DirectoryFiles(fs)
  {
    es := [];
    for k := 0 to |fs|
      invariant es == DirectoryFiles(fs[..k])
    {
      assert fs[..k + 1][..k] == fs[..k];
      es := es + [UntrackedFile(fs[k])];
    }
    assert fs[..|fs|] == fs;
  }

  /** Paths whose status contains `??`, in list order. */
  function Untracked(files: seq<Modified>): (r: seq<string>)
    ensures forall x :: x in r <==> exists i :: 0 <= i < |files| && Contains(files[i].status, "??") && files[i].path == x
  {
    if files == [] then []
    else
      var init := Untracked(files[..|files| - 1]);
      var f := files[|files| - 1];
      assert forall i :: 0 <= i < |files| - 1 ==> files[..|files| - 1][i] == files[i];
      if Contains(f.status, "??") then init + [f.path] else init
  }

  /** Files found under an untracked directory count as untracked. */
  lemma DirectoryFilesUntracked(p: string)
    ensures Contains(UntrackedFile(p).status, "??")
  {
    assert OccursAt("??", "??", 0);
  }

  /** Where a modified file is saved in the patch directory. */
  datatype Saved = CopyTo(path: string) | PatchTo(path: string)

  /** A binary file is copied under its own path; a text file becomes a
      diff named after its path with `.patch` appended. */
  function Destination(f: Modified): Saved {
    if f.isBinary then CopyTo(f.path) else PatchTo(f.path + ".patch")
  }

  /** Saving and applying agree: a generated diff is applied with git, and a
      copied binary file is copied back rather than applied. */
  lemma SavedKindApplied(tree: Tree, lines: seq<string>, f: Modified)
    requires f in ModifiedFiles(tree, lines)
    ensures Destination(f).PatchTo? ==> IsPatch(Destination(f).path)
    ensures Destination(f).CopyTo? ==> !IsPatch(Destination(f).path) && Destination(f).path == f.path
  {
    BinaryFlagsAgree(tree, lines);
    if f.isBinary {
      BinaryNeverApplied(f.path);
    } else {
      var n := f.path + ".patch";
      assert n[|n| - 6..] == ".patch";
    }
  }
}
