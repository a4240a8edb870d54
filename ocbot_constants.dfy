/** The browser-side extension table (resources/patches/chrome/browser/ocbot/ocbot_constants.h):
    which extension ids belong to ocbot, and which of them are pinned to the
    toolbar or shown with a label. */
module OcbotConstants {

  const ExtensionId: string := "gidimhmdbcpoeljccjcnodepmmjpfnmf"

  datatype ExtensionInfo = ExtensionInfo(id: string, isPinned: bool, isLabelled: bool, name: string)

  const Extensions: seq<ExtensionInfo> := [ExtensionInfo(ExtensionId, true, false, "ocbot")]

  /** `IsOcbotExtension`: a plain comparison with the one id. */
  predicate IsOcbotExtension(id: string) {
    id == ExtensionId
  }

  /** The early-return search of `IsOcbotPinnedExtension` over a table. */
  function PinnedIn(table: seq<ExtensionInfo>, id: string): (r: bool)
    ensures r <==> exists i :: 0 <= i < |table| && table[i].id == id && table[i].isPinned
  {
    if table == [] then false
    else if id == table[0].id && table[0].isPinned then true
    else
      var r := PinnedIn(table[1..], id);
      assert forall i :: 1 <= i < |table| ==> table[i] == table[1..][i - 1];
      r
  }

  /** The early-return search of `IsOcbotLabelledExtension` over a table. */
  function LabelledIn(table: seq<ExtensionInfo>, id: string): (r: bool)
    ensures r <==> exists i :: 0 <= i < |table| && table[i].id == id && table[i].isLabelled
  {
    if table == [] then false
    else if id == table[0].id && table[0].isLabelled then true
    else
      var r := LabelledIn(table[1..], id);
      assert forall i :: 1 <= i < |table| ==> table[i] == table[1..][i - 1];
      r
  }

  predicate IsOcbotPinnedExtension(id: string) {
    PinnedIn(Extensions, id)
  }

  predicate IsOcbotLabelledExtension(id: string) {
    LabelledIn(Extensions, id)
  }

  /** `GetOcbotExtensionIds`: the ids of the table, in order. */
  method GetOcbotExtensionIds() returns (ids: seq<string>)
    ensures |ids| == |Extensions| && forall i :: 0 <= i < |Extensions| ==> ids[i] == Extensions[i].id
  {
    ids := [];
    for i := 0 to |Extensions|
      invariant |ids| == i && forall j :: 0 <= j < i ==> ids[j] == Extensions[j].id
    {
      ids := ids + [Extensions[i].id];
    }
  }

  /** The id has the 32 characters of a Chrome extension id, all in `a`..`p`. */
  lemma ExtensionIdShape()
    ensures |ExtensionId| == 32 && forall i :: 0 <= i < |ExtensionId| ==> 'a' <= ExtensionId[i] <= 'p'
  {
  }

  /** The ocbot extension is pinned; pinned ids are ocbot ids. */
  lemma PinnedIffOcbot(id: string)
    ensures IsOcbotPinnedExtension(id) <==> IsOcbotExtension(id)
  {
    if IsOcbotExtension(id) {
      assert Extensions[0].id == id && Extensions[0].isPinned;
    }
  }

  /** No extension is shown with a label. */
  lemma NeverLabelled(id: string)
    ensures !IsOcbotLabelledExtension(id)
  {
  }

  /** The ids listed are exactly the ocbot ids. */
  lemma ListedIffOcbot(id: string)
    ensures (exists i :: 0 <= i < |Extensions| && Extensions[i].id == id) <==> IsOcbotExtension(id)
  {
    if IsOcbotExtension(id) {
      assert Extensions[0].id == id;
    }
  }
}
