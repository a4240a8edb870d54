/** String primitives of the two host languages, written out so that their edge
    cases are explicit: JavaScript's `trim`, `startsWith`, `slice` and
    `split('\n')`, Python's `strip`, `endswith`, the substring test `in`,
    `str.split(sep)[1]`, `os.path.splitext` and `Path.name`, and the decimal
    rendering of a number inside a template literal or f-string. */
module Text {
  import opened Wrappers

  /** Which language's notion of white space a trim uses. */
  datatype Lang = Js | Py

  /** ECMAScript WhiteSpace and LineTerminator code points (what `trim` removes). */
  predicate IsJsSpace(c: char) {
    c == '\t' || c == '\n' || c == '\U{B}' || c == '\U{C}' || c == '\r' || c == ' '
    || c == '\U{A0}' || c == '\U{1680}' || ('\U{2000}' <= c <= '\U{200A}')
    || c == '\U{2028}' || c == '\U{2029}' || c == '\U{202F}' || c == '\U{205F}'
    || c == '\U{3000}' || c == '\U{FEFF}'
  }

  /** Code points for which Python's `str.isspace` holds (what `strip()` removes). */
  predicate IsPySpace(c: char) {
    c == '\t' || c == '\n' || c == '\U{B}' || c == '\U{C}' || c == '\r'
    || ('\U{1C}' <= c <= '\U{1F}') || c == ' ' || c == '\U{85}' || c == '\U{A0}'
    || c == '\U{1680}' || ('\U{2000}' <= c <= '\U{200A}') || c == '\U{2028}'
    || c == '\U{2029}' || c == '\U{202F}' || c == '\U{205F}' || c == '\U{3000}'
  }

  predicate IsSpace(k: Lang, c: char) {
    match k
    case Js => IsJsSpace(c)
    case Py => IsPySpace(c)
  }

  /** Leading white space removed: the longest suffix that starts with a non-space. */
  function TrimLeft(k: Lang, s: string): (r: string)
    ensures |r| <= |s| && r == s[|s| - |r|..]
    ensures r == [] || !IsSpace(k, r[0])
    ensures forall i :: 0 <= i < |s| - |r| ==> IsSpace(k, s[i])
    decreases |s|
  {
    if s != [] && IsSpace(k, s[0]) then TrimLeft(k, s[1..]) else s
  }

  /** Trailing white space removed: the longest prefix that ends with a non-space. */
  function TrimRight(k: Lang, s: string): (r: string)
    ensures |r| <= |s| && r == s[..|r|]
    ensures r == [] || !IsSpace(k, r[|r| - 1])
    ensures forall i :: |r| <= i < |s| ==> IsSpace(k, s[i])
    decreases |s|
  {
    if s != [] && IsSpace(k, s[|s| - 1]) then TrimRight(k, s[..|s| - 1]) else s
  }

  /** JavaScript `s.trim()`. */
  function JsTrim(s: string): string {
    TrimRight(Js, TrimLeft(Js, s))
  }

  /** Python `s.strip()`. */
  function PyStrip(s: string): string {
    TrimRight(Py, TrimLeft(Py, s))
  }

  /** A string is blank when trimming leaves nothing, i.e. it is all white space. */
  lemma {:induction false} BlankIffAllSpace(k: Lang, s: string)
    ensures TrimRight(k, TrimLeft(k, s)) == [] <==> forall i :: 0 <= i < |s| ==> IsSpace(k, s[i])
  {
    var l := TrimLeft(k, s);
    if TrimRight(k, l) == [] {
      forall i | 0 <= i < |s| ensures IsSpace(k, s[i]) {
        if i >= |s| - |l| {
          assert s[i] == l[i - (|s| - |l|)];
        }
      }
    }
  }

  /** `s.replace(/c+$/, '')`: every trailing copy of `c` removed. */
  function TrimTrailing(s: string, c: char): (r: string)
    ensures |r| <= |s| && r == s[..|r|]
    ensures r == [] || r[|r| - 1] != c
    ensures forall i :: |r| <= i < |s| ==> s[i] == c
    decreases |s|
  {
    if s != [] && s[|s| - 1] == c then TrimTrailing(s[..|s| - 1], c) else s
  }

  predicate StartsWith(s: string, prefix: string) {
    prefix <= s
  }

  predicate EndsWith(s: string, suffix: string) {
    |suffix| <= |s| && s[|s| - |suffix|..] == suffix
  }

  /** Python `s.endswith(tuple)`. */
  predicate EndsWithAny(s: string, suffixes: seq<string>) {
    exists i :: 0 <= i < |suffixes| && EndsWith(s, suffixes[i])
  }

  /** `sub` occurs in `s` starting at position `j`. */
  predicate OccursAt(s: string, sub: string, j: nat) {
    j + |sub| <= |s| && s[j..j + |sub|] == sub
  }

  lemma OccursAtTail(s: string, sub: string, j: nat)
    requires s != []
    ensures OccursAt(s, sub, j + 1) <==> OccursAt(s[1..], sub, j)
  {
    if j + 1 + |sub| <= |s| {
      assert s[j + 1..j + 1 + |sub|] == s[1..][j..j + |sub|];
    }
  }

  /** The first position at which `sub` occurs in `s`. */
  function IndexOf(s: string, sub: string): (r: Option<nat>)
    ensures r.Some? ==> OccursAt(s, sub, r.value)
    ensures r.Some? ==> forall j: nat :: j < r.value ==> !OccursAt(s, sub, j)
    ensures r.None? ==> forall j: nat :: !OccursAt(s, sub, j)
    decreases |s|
  {
    if |s| < |sub| then None
    else if s[..|sub|] == sub then Some(0)
    else
      assert !OccursAt(s, sub, 0);
      assert forall j: nat :: OccursAt(s, sub, j + 1) <==> OccursAt(s[1..], sub, j) by {
        forall j: nat ensures OccursAt(s, sub, j + 1) <==> OccursAt(s[1..], sub, j) {
          OccursAtTail(s, sub, j);
        }
      }
      match IndexOf(s[1..], sub)
      case None =>
        assert forall j: nat :: !OccursAt(s, sub, j) by {
          forall j: nat ensures !OccursAt(s, sub, j) {
            if j > 0 { assert !OccursAt(s[1..], sub, j - 1); }
          }
        }
        None
      case Some(k) =>
        assert forall j: nat :: j < k + 1 ==> !OccursAt(s, sub, j) by {
          forall j: nat | j < k + 1 ensures !OccursAt(s, sub, j) {
            if j > 0 { assert !OccursAt(s[1..], sub, j - 1); }
          }
        }
        Some(k + 1)
  }

  /** Python's substring test `sub in s`. */
  predicate Contains(s: string, sub: string) {
    IndexOf(s, sub).Some?
  }

  /** Python `s.split(sep)[1]`: the text between the first occurrence of `sep`
      and the next one (or the end). */
  function SecondField(s: string, sep: string): (r: string)
    requires sep != [] && Contains(s, sep)
    ensures !Contains(r, sep)
  {
    var i := IndexOf(s, sep).value;
    var rest := s[i + |sep|..];
    match IndexOf(rest, sep)
    case None => rest
    case Some(j) =>
      assert forall k: nat :: !OccursAt(rest[..j], sep, k) by {
        forall k: nat ensures !OccursAt(rest[..j], sep, k) {
          if k + |sep| <= j {
            assert rest[..j][k..k + |sep|] == rest[k..k + |sep|];
            assert !OccursAt(rest, sep, k);
          }
        }
      }
      rest[..j]
  }

  /** The last position at which `c` occurs in `s` (Python `rfind`). */
  function LastIndexOf(s: string, c: char): (r: Option<nat>)
    ensures r.Some? ==> r.value < |s| && s[r.value] == c && forall j :: r.value < j < |s| ==> s[j] != c
    ensures r.None? ==> c !in s
    decreases |s|
  {
    if s == [] then None
    else if s[|s| - 1] == c then Some(|s| - 1)
    else LastIndexOf(s[..|s| - 1], c)
  }

  /** `Path(p).name`: the text after the last '/'. */
  function BaseName(p: string): (r: string)
    ensures '/' !in r && EndsWith(p, r)
  {
    match LastIndexOf(p, '/')
    case None => p
    case Some(i) => p[i + 1..]
  }

  /** True when `p[from..to]` has a character other than '.'. */
  predicate HasNonDot(p: string, from: nat, to: nat)
    requires from <= to <= |p|
  {
    exists i :: from <= i < to && p[i] != '.'
  }

  /** Python `os.path.splitext(p)` (POSIX): the extension starts at the last '.'
      of the final component, unless that component has only dots before it. */
  function SplitExt(p: string): (r: (string, string))
    ensures r.0 + r.1 == p
    ensures r.1 == [] || (r.1[0] == '.' && '/' !in r.1 && '.' !in r.1[1..])
  {
    var after := match LastIndexOf(p, '/') case None => 0 case Some(k) => k + 1;
    match LastIndexOf(p, '.')
    case None => (p, "")
    case Some(dot) =>
      if dot >= after && HasNonDot(p, after, dot) then
        assert p[..dot] + p[dot..] == p;
        (p[..dot], p[dot..])
      else (p, "")
  }

  /** JavaScript `s.slice(0, end)` on a string or an array: a negative end
      counts from the back. */
  function SliceTo<T>(s: seq<T>, end: int): (r: seq<T>)
    ensures r <= s
    ensures 0 <= end ==> |r| == if end < |s| then end else |s|
    ensures end < 0 ==> |r| == if |s| + end < 0 then 0 else |s| + end
  {
    var e := if end < 0 then (if |s| + end < 0 then 0 else |s| + end) else if end < |s| then end else |s|;
    s[..e]
  }

  /** JavaScript `s.slice(start)`: a negative start counts from the back. */
  function SliceFrom(s: string, start: int): (r: string)
    ensures EndsWith(s, r)
    ensures 0 <= start ==> |r| == if start < |s| then |s| - start else 0
    ensures start < 0 ==> |r| == if |s| + start < 0 then |s| else -start
  {
    var b := if start < 0 then (if |s| + start < 0 then 0 else |s| + start) else if start < |s| then start else |s|;
    s[b..]
  }

  /** ASCII lower-casing. */
  function AsciiLower(s: string): (r: string)
    ensures |r| == |s|
    ensures forall i :: 0 <= i < |s| ==> r[i] == if 'A' <= s[i] <= 'Z' then (s[i] as int + 32) as char else s[i]
  {
    seq(|s|, i requires 0 <= i < |s| => if 'A' <= s[i] <= 'Z' then (s[i] as int + 32) as char else s[i])
  }

  // ---- Decimal numerals -------------------------------------------------

  predicate IsDigit(c: char) {
    '0' <= c <= '9'
  }

  function DigitChar(d: nat): (c: char)
    requires d < 10
    ensures IsDigit(c) && c as int - '0' as int == d
  {
    ('0' as int + d) as char
  }

  /** The value of a string of decimal digits. */
  function DigitsValue(s: string): nat
    requires forall i :: 0 <= i < |s| ==> IsDigit(s[i])
  {
    if s == [] then 0
    else
      assert IsDigit(s[|s| - 1]);
      DigitsValue(s[..|s| - 1]) * 10 + (s[|s| - 1] as int - '0' as int) as nat
  }

  /** The decimal rendering of a natural number, as a template literal writes it. */
  function NatToString(n: nat): (r: string)
    ensures |r| >= 1 && forall i :: 0 <= i < |r| ==> IsDigit(r[i])
    ensures (r[0] == '0') == (n == 0)
  {
    if n < 10 then [DigitChar(n)] else NatToString(n / 10) + [DigitChar(n % 10)]
  }

  /** Reading the rendering back gives the number. */
  lemma {:induction false} NatToStringRoundTrip(n: nat)
    ensures DigitsValue(NatToString(n)) == n
  {
    if n >= 10 {
      NatToStringRoundTrip(n / 10);
      var s := NatToString(n);
      assert s[..|s| - 1] == NatToString(n / 10);
    }
  }

  // ---- Lines ------------------------------------------------------------

  /** JavaScript `s.split('\n')`: always at least one piece, none holding '\n'. */
  function SplitLines(s: string): (r: seq<string>)
    ensures |r| >= 1
    ensures forall i :: 0 <= i < |r| ==> '\n' !in r[i]
  {
    if s == [] then [""]
    else
      var rest := SplitLines(s[1..]);
      if s[0] == '\n' then [""] + rest
      else [[s[0]] + rest[0]] + rest[1..]
  }

  /** The pieces joined back with '\n'. */
  function JoinLines(parts: seq<string>): string
    requires |parts| >= 1
  {
    if |parts| == 1 then parts[0] else parts[0] + "\n" + JoinLines(parts[1..])
  }

  /** Splitting then joining gives the text back. */
  lemma {:induction false} SplitJoin(s: string)
    ensures JoinLines(SplitLines(s)) == s
  {
    if s != [] {
      SplitJoin(s[1..]);
      var rest := SplitLines(s[1..]);
      if s[0] != '\n' && |rest| > 1 {
        assert SplitLines(s)[1..] == rest[1..];
      }
    }
  }

  /** Every piece except the last: the complete lines. */
  function Init(pieces: seq<string>): seq<string>
    requires |pieces| >= 1
  {
    pieces[..|pieces| - 1]
  }

  /** The last piece: the text after the last '\n'. */
  function Last(pieces: seq<string>): string
    requires |pieces| >= 1
  {
    pieces[|pieces| - 1]
  }

  lemma {:induction false} SplitNoNewline(s: string)
    requires '\n' !in s
    ensures SplitLines(s) == [s]
  {
    if s != [] {
      assert '\n' !in s[1..];
      SplitNoNewline(s[1..]);
      assert [s[0]] + s[1..] == s;
    }
  }

  /** How the pieces of a concatenation are made of the pieces of its parts:
      the last piece of `a` and the first piece of `b` fuse into one. */
  lemma {:induction false} SplitAppend(a: string, b: string)
    ensures SplitLines(a + b)
         == Init(SplitLines(a)) + [Last(SplitLines(a)) + SplitLines(b)[0]] + SplitLines(b)[1..]
  {
    if a == [] {
      var rb := SplitLines(b);
      assert a + b == b;
      assert [rb[0]] + rb[1..] == rb;
      assert "" + rb[0] == rb[0];
    } else {
      assert (a + b)[1..] == a[1..] + b;
      SplitAppend(a[1..], b);
      if a[0] == '\n' {
        SplitAppendNewline(a, b);
      } else if |SplitLines(a[1..])| == 1 {
        SplitAppendShort(a, b);
      } else {
        SplitAppendLong(a, b);
      }
    }
  }

  /** One step of `SplitLines`, as a fact about a nonempty text. */
  lemma SplitCons(s: string)
    requires s != []
    ensures SplitLines(s) == if s[0] == '\n' then [""] + SplitLines(s[1..])
                             else [[s[0]] + SplitLines(s[1..])[0]] + SplitLines(s[1..])[1..]
  {
  }

  lemma SplitAppendNewline(a: string, b: string)
    requires a != [] && a[0] == '\n' && (a + b)[1..] == a[1..] + b
    requires SplitLines(a[1..] + b)
          == Init(SplitLines(a[1..])) + [Last(SplitLines(a[1..])) + SplitLines(b)[0]] + SplitLines(b)[1..]
    ensures SplitLines(a + b)
         == Init(SplitLines(a)) + [Last(SplitLines(a)) + SplitLines(b)[0]] + SplitLines(b)[1..]
  {
    SplitCons(a);
    SplitCons(a + b);
    var ra := SplitLines(a[1..]);
    var rb := SplitLines(b);
    FuseNewline(ra, Last(ra) + rb[0], rb[1..]);
  }

  lemma SplitAppendShort(a: string, b: string)
    requires a != [] && a[0] != '\n' && (a + b)[1..] == a[1..] + b && |SplitLines(a[1..])| == 1
    requires SplitLines(a[1..] + b)
          == Init(SplitLines(a[1..])) + [Last(SplitLines(a[1..])) + SplitLines(b)[0]] + SplitLines(b)[1..]
    ensures SplitLines(a + b)
         == Init(SplitLines(a)) + [Last(SplitLines(a)) + SplitLines(b)[0]] + SplitLines(b)[1..]
  {
    SplitCons(a);
    SplitCons(a + b);
    var ra := SplitLines(a[1..]);
    var rb := SplitLines(b);
    FuseShort(a[0], ra, rb[0], rb[1..]);
  }

  lemma SplitAppendLong(a: string, b: string)
    requires a != [] && a[0] != '\n' && (a + b)[1..] == a[1..] + b && |SplitLines(a[1..])| > 1
    requires SplitLines(a[1..] + b)
          == Init(SplitLines(a[1..])) + [Last(SplitLines(a[1..])) + SplitLines(b)[0]] + SplitLines(b)[1..]
    ensures SplitLines(a + b)
         == Init(SplitLines(a)) + [Last(SplitLines(a)) + SplitLines(b)[0]] + SplitLines(b)[1..]
  {
    SplitCons(a);
    SplitCons(a + b);
    var ra := SplitLines(a[1..]);
    var rb := SplitLines(b);
    FuseLong(a[0], ra, rb[0], rb[1..]);
  }

  lemma FuseNewline(ra: seq<string>, mid: string, tail: seq<string>)
    requires |ra| >= 1
    ensures var sa := [""] + ra;
      [""] + (Init(ra) + [mid] + tail) == Init(sa) + [mid] + tail && Last(sa) == Last(ra)
  {
    var sa := [""] + ra;
    assert Init(sa) == [""] + Init(ra);
  }

  lemma FuseShort(c: char, ra: seq<string>, b0: string, tail: seq<string>)
    requires |ra| == 1
    ensures var r := Init(ra) + [Last(ra) + b0] + tail;
      [[c] + r[0]] + r[1..] == Init([[c] + ra[0]] + ra[1..]) + [Last([[c] + ra[0]] + ra[1..]) + b0] + tail
  {
    var r := Init(ra) + [Last(ra) + b0] + tail;
    assert Init(ra) == [] && r[0] == ra[0] + b0 && r[1..] == tail;
    assert [[c] + ra[0]] + ra[1..] == [[c] + ra[0]];
    assert [c] + (ra[0] + b0) == ([c] + ra[0]) + b0;
  }

  lemma FuseLong(c: char, ra: seq<string>, b0: string, tail: seq<string>)
    requires |ra| > 1
    ensures var r := Init(ra) + [Last(ra) + b0] + tail; var sa := [[c] + ra[0]] + ra[1..];
      [[c] + r[0]] + r[1..] == Init(sa) + [Last(sa) + b0] + tail
  {
    var r := Init(ra) + [Last(ra) + b0] + tail;
    var sa := [[c] + ra[0]] + ra[1..];
    assert r[0] == ra[0];
    assert r[1..] == Init(ra)[1..] + [Last(ra) + b0] + tail;
    assert Init(sa) == [[c] + ra[0]] + Init(ra)[1..];
    assert Last(sa) == Last(ra);
  }

  /** Feeding one more chunk `c` to a buffer that holds the tail of `t`:
      the complete lines of `t + c` are those of `t` followed by those of
      (tail + c), and the new tail is the tail of (tail + c). */
  lemma SplitChunk(t: string, c: string)
    ensures Init(SplitLines(t + c)) == Init(SplitLines(t)) + Init(SplitLines(Last(SplitLines(t)) + c))
    ensures Last(SplitLines(t + c)) == Last(SplitLines(Last(SplitLines(t)) + c))
  {
    var st := SplitLines(t);
    var l := Last(st);
    var sc := SplitLines(c);
    SplitAppend(t, c);
    SplitAppend(l, c);
    SplitNoNewline(l);
    assert Init([l]) == [] && Last([l]) == l;
    FuseChunk(Init(st), l + sc[0], sc[1..]);
  }

  lemma FuseChunk(front: seq<string>, mid: string, tail: seq<string>)
    ensures Init(front + [mid] + tail) == front + Init([] + [mid] + tail)
    ensures Last(front + [mid] + tail) == Last([] + [mid] + tail)
  {
    assert [] + [mid] + tail == [mid] + tail;
    if tail == [] {
      assert front + [mid] + tail == front + [mid];
    } else {
      assert Init(front + [mid] + tail) == front + [mid] + Init(tail);
      assert Init([mid] + tail) == [mid] + Init(tail);
    }
  }

  /** The chunks of a stream glued together. */
  function Concat(chunks: seq<string>): string {
    if chunks == [] then "" else Concat(chunks[..|chunks| - 1]) + chunks[|chunks| - 1]
  }
}
