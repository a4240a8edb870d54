/** The choice of a source PNG for each icon size the build replaces
    (scripts/icons.py, `_find_best_source`). Only the selection is modelled:
    the files themselves, resizing and copying are not. */
module Icons {
  import opened Wrappers

  /** The smallest element of `xs` that is at least `target`: the first one a
      walk over `sorted(xs)` stops at. */
  function LeastAtLeast(xs: seq<int>, target: int): (r: Option<int>)
    ensures r.None? <==> forall i :: 0 <= i < |xs| ==> xs[i] < target
    ensures r.Some? ==> r.value in xs && r.value >= target
    ensures r.Some? ==> forall i :: 0 <= i < |xs| && xs[i] >= target ==> r.value <= xs[i]
  {
    if xs == [] then None
    else
      var rest := LeastAtLeast(xs[1..], target);
      assert forall i :: 1 <= i < |xs| ==> xs[i] == xs[1..][i - 1];
      if xs[0] < target then rest
      else if rest.Some? && rest.value < xs[0] then rest
      else Some(xs[0])
  }

  /** `_find_best_source`: the file for the target size when that size is
      available; otherwise the file for the smallest larger size; otherwise the
      file for the last available size; nothing when no size is available. */
  function FindBestSource(sizeToSrc: map<int, string>, available: seq<int>, target: int): (r: Option<string>)
    requires forall i :: 0 <= i < |available| ==> available[i] in sizeToSrc
  {
    if target in available then Some(sizeToSrc[target])
    else match LeastAtLeast(available, target)
      case Some(s) => Some(sizeToSrc[s])
      case None => if available == [] then None else Some(sizeToSrc[available[|available| - 1]])
  }

  predicate Ascending(xs: seq<int>) {
    forall i, j :: 0 <= i < j < |xs| ==> xs[i] < xs[j]
  }

  /** Nothing is chosen exactly when nothing is available, and whatever is
      chosen is the file of some available size. */
  lemma BestSourceAvailable(sizeToSrc: map<int, string>, available: seq<int>, target: int)
    requires forall i :: 0 <= i < |available| ==> available[i] in sizeToSrc
    ensures FindBestSource(sizeToSrc, available, target).None? <==> available == []
    ensures FindBestSource(sizeToSrc, available, target).Some? ==>
      exists i :: 0 <= i < |available| && FindBestSource(sizeToSrc, available, target).value == sizeToSrc[available[i]]
  {
    var r := FindBestSource(sizeToSrc, available, target);
    if target in available {
      var i :| 0 <= i < |available| && available[i] == target;
      assert r.value == sizeToSrc[available[i]];
    } else if LeastAtLeast(available, target).Some? {
      var s := LeastAtLeast(available, target).value;
      var i :| 0 <= i < |available| && available[i] == s;
      assert r.value == sizeToSrc[available[i]];
    } else if available != [] {
      assert r.value == sizeToSrc[available[|available| - 1]];
    }
  }

  /** An available target size picks its own file. */
  lemma ExactSizeChosen(sizeToSrc: map<int, string>, available: seq<int>, target: int)
    requires forall i :: 0 <= i < |available| ==> available[i] in sizeToSrc
    requires target in available
    ensures FindBestSource(sizeToSrc, available, target) == Some(sizeToSrc[target])
  {
  }

  /** Otherwise, when some available size is larger, the smallest such size is used. */
  lemma LargerSizeChosen(sizeToSrc: map<int, string>, available: seq<int>, target: int, s: int)
    requires forall i :: 0 <= i < |available| ==> available[i] in sizeToSrc
    requires target !in available
    requires s in available && s >= target
    requires forall i :: 0 <= i < |available| && available[i] >= target ==> s <= available[i]
    ensures FindBestSource(sizeToSrc, available, target) == Some(sizeToSrc[s])
  {
    var i :| 0 <= i < |available| && available[i] == s;
    assert LeastAtLeast(available, target).Some?;
    var t := LeastAtLeast(available, target).value;
    assert t <= s;
    var j :| 0 <= j < |available| && available[j] == t;
    assert s <= t;
  }

  /** When every available size is below the target and the sizes are listed
      in ascending order (the build sorts them), the largest size is used. */
  lemma LargestSizeFallback(sizeToSrc: map<int, string>, available: seq<int>, target: int)
    requires forall i :: 0 <= i < |available| ==> available[i] in sizeToSrc
    requires available != [] && Ascending(available)
    requires forall i :: 0 <= i < |available| ==> available[i] < target
    ensures var largest := available[|available| - 1];
      (forall i :: 0 <= i < |available| ==> available[i] <= largest)
      && FindBestSource(sizeToSrc, available, target) == Some(sizeToSrc[largest])
  {
  }
}
