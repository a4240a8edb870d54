/** The incremental patch refresher (scripts/update_patches.py): the map from
    source paths to the patch-directory entries that already hold them, and
    the plan for each line of `git status --porcelain`. Paths are relative
    to the patch root or the source root; the file system and git are
    oracles. */
module UpdatePatches {
  import opened Wrappers
  import opened Text

  /** The keys a patch-directory entry is recorded under: none for `series`
      and dot files; for a `.patch` entry its path without `.patch` and that
      key without its extension; for any other entry its own path. */
  function PatchKeys(rel: string): seq<string> {
    var name := BaseName(rel);
    if name == "series" || StartsWith(name, ".") then []
    else if EndsWith(name, ".patch") then
      var key := SliceTo(rel, -6);
      [key, SplitExt(key).0]
    else [rel]
  }

  /** Each key set to the entry, in order. */
  function Record(m: map<string, string>, keys: seq<string>, rel: string): (r: map<string, string>)
    ensures forall k :: k in r <==> k in m || k in keys
    ensures forall k :: k in r ==> r[k] == if k in keys then rel else m[k]
    decreases |keys|
  {
    if keys == [] then m else Record(m[keys[0] := rel], keys[1..], rel)
  }

  /** The entries in walk order, each recorded under the keys `keysOf` gives. */
  function BuildMap(files: seq<string>, keysOf: string -> seq<string>): map<string, string> {
    if files == [] then map[]
    else Record(BuildMap(files[..|files| - 1], keysOf), keysOf(files[|files| - 1]), files[|files| - 1])
  }

  /** The map `get_existing_patches` builds. */
  function ExistingPatches(files: seq<string>): map<string, string> {
    BuildMap(files, PatchKeys)
  }

  /** `get_existing_patches`. */
  method GetExistingPatches(files: seq<string>) returns (patchMap: map<string, string>)
    ensures patchMap == ExistingPatches(files)
  {
    patchMap := map[];
    for i := 0 to |files|
      invariant patchMap == ExistingPatches(files[..i])
    {
      assert files[..i + 1][..i] == files[..i];
      patchMap := AddEntry(patchMap, files[i]);
    }
    assert files[..|files|] == files;
  }

  /** One file of the walk: skipped, or recorded under one or two keys. */
  method AddEntry(m: map<string, string>, rel: string) returns (patchMap: map<string, string>)
    ensures patchMap == Record(m, PatchKeys(rel), rel)
  {
    patchMap := m;
    var name := BaseName(rel);
    if name == "series" || StartsWith(name, ".") {
      return;
    }
    if EndsWith(name, ".patch") {
      var key := SliceTo(rel, -6);
      patchMap := patchMap[key := rel];
      patchMap := patchMap[SplitExt(key).0 := rel];
      RecordTwo(m, key, SplitExt(key).0, rel);
    } else {
      patchMap := patchMap[rel := rel];
      RecordOne(m, rel, rel);
    }
  }

  lemma RecordOne(m: map<string, string>, a: string, rel: string)
    ensures Record(m, [a], rel) == m[a := rel]
  {
    assert [a][1..] == [];
  }

  lemma RecordTwo(m: map<string, string>, a: string, b: string, rel: string)
    ensures Record(m, [a, b], rel) == m[a := rel][b := rel]
  {
    assert [a, b][1..] == [b];
    RecordOne(m[a := rel], b, rel);
  }

  /** A key is mapped iff some entry yields it. */
  lemma {:induction false} BuildKeys(files: seq<string>, keysOf: string -> seq<string>, k: string)
    ensures k in BuildMap(files, keysOf) <==> exists i :: 0 <= i < |files| && k in keysOf(files[i])
  {
    if files != [] {
      var init := files[..|files| - 1];
      BuildKeys(init, keysOf, k);
      assert forall i :: 0 <= i < |init| ==> init[i] == files[i];
    }
  }

  /** A mapped key is mapped to the last entry that yields it: a later entry
      overwrites an earlier one. */
  lemma {:induction false} BuildValue(files: seq<string>, keysOf: string -> seq<string>, k: string)
    requires k in BuildMap(files, keysOf)
    ensures exists i :: (0 <= i < |files| && files[i] == BuildMap(files, keysOf)[k] && k in keysOf(files[i])
      && forall j :: i < j < |files| ==> k !in keysOf(files[j]))
  {
    var last := |files| - 1;
    var init := files[..last];
    var m := BuildMap(files, keysOf);
    assert m == Record(BuildMap(init, keysOf), keysOf(files[last]), files[last]);
    if k in keysOf(files[last]) {
      assert files[last] == m[k];
    } else {
      assert k in BuildMap(init, keysOf) && m[k] == BuildMap(init, keysOf)[k];
      BuildValue(init, keysOf, k);
      var i :| 0 <= i < |init| && init[i] == BuildMap(init, keysOf)[k] && k in keysOf(init[i])
        && forall j :: i < j < |init| ==> k !in keysOf(init[j]);
      assert files[i] == m[k];
      assert forall j :: i < j < last ==> files[j] == init[j];
    }
  }

  /** `get_existing_patches` maps a key iff some entry yields it, to the last
      entry that does. */
  lemma ExistingPatchesSpec(files: seq<string>, k: string)
    ensures var m := ExistingPatches(files);
      (k in m <==> exists i :: 0 <= i < |files| && k in PatchKeys(files[i]))
      && (k in m ==>
            exists i :: 0 <= i < |files| && files[i] == m[k] && k in PatchKeys(files[i])
              && forall j :: i < j < |files| ==> k !in PatchKeys(files[j]))
  {
    BuildKeys(files, PatchKeys, k);
    if k in ExistingPatches(files) {
      BuildValue(files, PatchKeys, k);
    }
  }

  /** `series` and dot files are never mapped to. */
  lemma NeverMapped(files: seq<string>, k: string)
    requires k in ExistingPatches(files)
    ensures var name := BaseName(ExistingPatches(files)[k]); name != "series" && !StartsWith(name, ".")
  {
    BuildValue(files, PatchKeys, k);
  }

  /** Paths the refresher leaves alone, matched case-sensitively. */
  const StaticSuffixes: seq<string> := [".png", ".ico", ".icns", ".jpg", ".car"]

  /** What the refresher does for one status line; paths are relative to the
      patch root. */
  datatype Plan =
    | SkipStatic(path: string)
    | SkipDeleted(path: string)
    | UpdatePatch(dest: string)
    | UpdateFile(dest: string)
    | CreateCopy(dest: string)
    | CreatePatch(dest: string)

  /** The entry for a path: by the exact path, else by the path without its
      extension. */
  function Lookup(m: map<string, string>, path: string): (r: Option<string>)
    ensures r.Some? <==> path in m || SplitExt(path).0 in m
    ensures path in m ==> r == Some(m[path])
    ensures path !in m && SplitExt(path).0 in m ==> r == Some(m[SplitExt(path).0])
  {
    if path in m then Some(m[path])
    else
      var stem := SplitExt(path).0;
      if stem in m then Some(m[stem]) else None
  }

  predicate GoesToCopy(path: string) {
    Contains(path, "ocbot/") || EndsWith(path, ".icon")
  }

  /** One iteration of `main`: the path is the text from the fourth character
      on; static files and files that no longer exist are skipped; a mapped
      path updates its entry (a diff for a `.patch` entry, a copy otherwise);
      an unmapped path gets a copy when it lies under `ocbot/` or ends in
      `.icon`, and a new patch named after its full path otherwise. */
  function LinePlan(m: map<string, string>, present: string -> bool, line: string): Plan {
    var path := SliceFrom(line, 3);
    if EndsWithAny(path, StaticSuffixes) then SkipStatic(path)
    else if !present(path) then SkipDeleted(path)
    else match Lookup(m, path)
      case Some(d) => if EndsWith(BaseName(d), ".patch") then UpdatePatch(d) else UpdateFile(d)
      case None => if GoesToCopy(path) then CreateCopy(path) else CreatePatch(path + ".patch")
  }

  /** The plan for the whole status output, line by line. */
  function Plans(m: map<string, string>, present: string -> bool, lines: seq<string>): (r: seq<Plan>)
    ensures |r| == |lines| && forall i :: 0 <= i < |lines| ==> r[i] == LinePlan(m, present, lines[i])
  {
    seq(|lines|, i requires 0 <= i < |lines| => LinePlan(m, present, lines[i]))
  }

  /** The static-suffix test is case-sensitive. */
  lemma StaticSuffixCaseSensitive()
    ensures EndsWithAny("logo.png", StaticSuffixes) && !EndsWithAny("logo.PNG", StaticSuffixes)
  {
    assert EndsWith("logo.png", StaticSuffixes[0]);
  }

  /** A path that is kept and mapped updates its entry. */
  lemma MappedPlan(m: map<string, string>, present: string -> bool, line: string, d: string)
    requires var path := SliceFrom(line, 3);
      !EndsWithAny(path, StaticSuffixes) && present(path) && path in m && m[path] == d
    ensures LinePlan(m, present, line) == if EndsWith(BaseName(d), ".patch") then UpdatePatch(d) else UpdateFile(d)
  {
  }

  lemma LastIndexOfAppend(p: string, s: string, c: char)
    requires c !in s
    ensures LastIndexOf(p + s, c) == LastIndexOf(p, c)
    decreases |s|
  {
    if s != [] {
      assert (p + s)[..|p + s| - 1] == p + s[..|s| - 1];
      LastIndexOfAppend(p, s[..|s| - 1], c);
    } else {
      assert p + s == p;
    }
  }

  lemma BaseNameAppend(p: string, s: string)
    requires '/' !in s
    ensures BaseName(p + s) == BaseName(p) + s
  {
    LastIndexOfAppend(p, s, '/');
    match LastIndexOf(p, '/')
    case None =>
    case Some(i) => assert (p + s)[i + 1..] == p[i + 1..] + s;
  }

  /** A new patch is found again: once the entry a line creates is in the
      patch directory, the next run maps the path to it and updates it. */
  lemma CreatedPatchFound(files: seq<string>, present: string -> bool, line: string)
    requires LinePlan(ExistingPatches(files), present, line).CreatePatch?
    requires var name := BaseName(SliceFrom(line, 3)); name != [] && name[0] != '.'
    ensures var d := LinePlan(ExistingPatches(files), present, line).dest;
      LinePlan(ExistingPatches(files + [d]), present, line) == UpdatePatch(d)
  {
    var path := SliceFrom(line, 3);
    CreatedFacts(ExistingPatches(files), present, line);
    var d := path + ".patch";
    PatchEntryKeyed(files, path);
    BaseNameAppend(path, ".patch");
    assert EndsWith(BaseName(d), ".patch");
    MappedPlan(ExistingPatches(files + [d]), present, line, d);
  }

  /** A line that creates an entry is kept, and names it after its path. */
  lemma CreatedFacts(m: map<string, string>, present: string -> bool, line: string)
    requires LinePlan(m, present, line).CreatePatch? || LinePlan(m, present, line).CreateCopy?
    ensures var path := SliceFrom(line, 3);
      !EndsWithAny(path, StaticSuffixes) && present(path)
      && LinePlan(m, present, line) == if GoesToCopy(path) then CreateCopy(path) else CreatePatch(path + ".patch")
  {
  }

  /** A `.patch` entry named after a path is recorded under that path. */
  lemma PatchEntryKeyed(files: seq<string>, path: string)
    requires BaseName(path) != [] && BaseName(path)[0] != '.'
    ensures var d := path + ".patch"; path in ExistingPatches(files + [d]) && ExistingPatches(files + [d])[path] == d
  {
    var d := path + ".patch";
    PatchKeysOfPatch(path);
    var all := files + [d];
    assert all[..|all| - 1] == files;
    assert ExistingPatches(all) == Record(ExistingPatches(files), PatchKeys(d), d);
  }

  /** The first key of a `.patch` entry is its path without `.patch`. */
  lemma PatchKeysOfPatch(path: string)
    requires BaseName(path) != [] && BaseName(path)[0] != '.'
    ensures var d := path + ".patch"; PatchKeys(d) != [] && PatchKeys(d)[0] == path
  {
    var d := path + ".patch";
    BaseNameAppend(path, ".patch");
    var name := BaseName(d);
    assert name == BaseName(path) + ".patch";
    assert name[0] == BaseName(path)[0];
    assert name != "series" by { assert name[|name| - 1] != 's'; }
    assert !StartsWith(name, ".");
    assert EndsWith(name, ".patch");
    assert SliceTo(d, -6) == path;
  }

  /** A new copy is found again in the same way, as long as its own name is
      not one the map keys differently. */
  lemma CreatedCopyFound(files: seq<string>, present: string -> bool, line: string)
    requires LinePlan(ExistingPatches(files), present, line).CreateCopy?
    requires var name := BaseName(SliceFrom(line, 3));
      name != "series" && !StartsWith(name, ".") && !EndsWith(name, ".patch")
    ensures var d := LinePlan(ExistingPatches(files), present, line).dest;
      LinePlan(ExistingPatches(files + [d]), present, line) == UpdateFile(d)
  {
    var path := SliceFrom(line, 3);
    CreatedFacts(ExistingPatches(files), present, line);
    assert PatchKeys(path) == [path];
    assert (files + [path])[..|files + [path]| - 1] == files;
    MappedPlan(ExistingPatches(files + [path]), present, line, path);
  }
}
