/** JSON values as the adapters see them after `JSON.parse`, and the parts of
    JavaScript's semantics the adapters lean on when they read such a value:
    optional-chained member and index access, truthiness and `for..of`.
    `JSON.parse` and `JSON.stringify` themselves are oracles (`Codec`). */
module JsonValue {
  import opened Wrappers

  datatype Json =
    | JNull
    | JBool(b: bool)
    | JNum(n: real)
    | JStr(s: string)
    | JArr(items: seq<Json>)
    | JObj(fields: seq<(string, Json)>)

  /** `JSON.parse` (None when it throws) and `JSON.stringify`, supplied from outside. */
  datatype Codec = Codec(parse: string -> Option<Json>, stringify: Json -> string)

  /** `JSON.parse(text)`. The one fact of the real parser the model relies on is
      that the text `{}` is the empty object; everything else is the oracle's. */
  function Parse(c: Codec, text: string): (r: Option<Json>)
    ensures text == "{}" ==> r == Some(JObj([]))
  {
    if text == "{}" then Some(JObj([])) else c.parse(text)
  }

  predicate HasKey(fields: seq<(string, Json)>, key: string) {
    exists i :: 0 <= i < |fields| && fields[i].0 == key
  }

  /** Member lookup; with duplicate keys the last one wins, as after `JSON.parse`. */
  function Get(fields: seq<(string, Json)>, key: string): Option<Json> {
    if fields == [] then None
    else if fields[|fields| - 1].0 == key then Some(fields[|fields| - 1].1)
    else Get(fields[..|fields| - 1], key)
  }

  /** `Get` finds a member exactly when one has the key, and then the last one. */
  lemma {:induction false} GetSpec(fields: seq<(string, Json)>, key: string)
    ensures Get(fields, key).Some? <==> HasKey(fields, key)
    ensures Get(fields, key).Some? ==> Get(fields, key).value == fields[LastKeyIndex(fields, key)].1
  {
    if fields != [] && fields[|fields| - 1].0 != key {
      GetSpec(fields[..|fields| - 1], key);
      if HasKey(fields, key) {
        var i :| 0 <= i < |fields| && fields[i].0 == key;
        assert fields[..|fields| - 1][i].0 == key;
      }
    }
  }

  /** Index of the last member named `key`. */
  function LastKeyIndex(fields: seq<(string, Json)>, key: string): (i: nat)
    requires HasKey(fields, key)
    ensures i < |fields| && fields[i].0 == key
    ensures forall j :: i < j < |fields| ==> fields[j].0 != key
  {
    if fields[|fields| - 1].0 == key then |fields| - 1
    else
      assert HasKey(fields[..|fields| - 1], key) by {
        var i :| 0 <= i < |fields| && fields[i].0 == key;
        assert fields[..|fields| - 1][i].0 == key;
      }
      LastKeyIndex(fields[..|fields| - 1], key)
  }

  /** A member of an object value built with distinct keys is found by `Get`. */
  lemma {:induction false} GetMember(fields: seq<(string, Json)>, i: nat)
    requires i < |fields|
    requires forall j :: i < j < |fields| ==> fields[j].0 != fields[i].0
    ensures Get(fields, fields[i].0) == Some(fields[i].1)
  {
    if i < |fields| - 1 {
      GetMember(fields[..|fields| - 1], i);
    }
  }

  /** No member has the key: lookup finds nothing. */
  lemma GetAbsent(fields: seq<(string, Json)>, key: string)
    requires forall j :: 0 <= j < |fields| ==> fields[j].0 != key
    ensures Get(fields, key).None?
  {
    GetSpec(fields, key);
  }

  /** Members appended under other names do not hide a member. */
  lemma {:induction false} GetAppendOther(a: seq<(string, Json)>, b: seq<(string, Json)>, key: string)
    requires forall j :: 0 <= j < |b| ==> b[j].0 != key
    ensures Get(a + b, key) == Get(a, key)
  {
    if b == [] {
      assert a + b == a;
    } else {
      assert (a + b)[..|a + b| - 1] == a + b[..|b| - 1];
      GetAppendOther(a, b[..|b| - 1], key);
    }
  }

  /** `v?.key` for the keys the adapters read: a member of an object, undefined
      (None) on anything else. None of those keys names a built-in property of
      arrays or strings. */
  function Prop(v: Option<Json>, key: string): Option<Json> {
    match v
    case Some(JObj(fields)) => Get(fields, key)
    case _ => None
  }

  /** `v?.[0]`: the first element of an array, member "0" of an object, the
      first character of a string. */
  function Index0(v: Option<Json>): Option<Json> {
    match v
    case Some(JArr(items)) => if items == [] then None else Some(items[0])
    case Some(JObj(fields)) => Get(fields, "0")
    case Some(JStr(s)) => if s == [] then None else Some(JStr([s[0]]))
    case _ => None
  }

  /** JavaScript truthiness of a value (None is `undefined`). */
  predicate Truthy(v: Option<Json>) {
    match v
    case None => false
    case Some(JNull) => false
    case Some(JBool(b)) => b
    case Some(JNum(n)) => n != 0.0
    case Some(JStr(s)) => s != []
    case Some(JArr(_)) => true
    case Some(JObj(_)) => true
  }

  /** A non-empty string: the values the adapters copy into event text. */
  predicate IsText(v: Option<Json>) {
    v.Some? && v.value.JStr? && v.value.s != []
  }

  /** The string held by `v`, or "" when `v` is absent or not a string. */
  function StrOf(v: Option<Json>): string {
    match v
    case Some(JStr(s)) => s
    case _ => ""
  }

  /** The elements `for (const x of v)` visits: an array's items, a string's
      characters; None for anything else, where `for..of` throws a TypeError. */
  function Iter(v: Json): (r: Option<seq<Json>>)
    ensures v.JArr? ==> r == Some(v.items)
    ensures v.JStr? ==> r.Some? && |r.value| == |v.s| && forall i :: 0 <= i < |v.s| ==> r.value[i] == JStr([v.s[i]])
    ensures !v.JArr? && !v.JStr? ==> r.None?
  {
    match v
    case JArr(items) => Some(items)
    case JStr(s) => Some(seq(|s|, i requires 0 <= i < |s| => JStr([s[i]])))
    case _ => None
  }
}
