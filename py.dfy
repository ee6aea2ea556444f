/**
 * The pieces of Python's runtime that the request handler leans on: JSON values
 * as `json.loads` produces them, truthiness and `or`, `dict.get`, the slice
 * `x[:n]`, `str.strip`, `startswith`/`endswith`, the substring test `w in s` and
 * `sep.join(parts)`.
 */
module Py {

  datatype Option<T> = None | Some(value: T)

  /** The exceptions the handler can meet. `ServiceError` is whatever a remote call raises. */
  datatype PyError = TypeError | AttributeError | ServiceError(detail: string)

  /** A computation that either returns a value or raises. */
  datatype Result<T> = Ok(value: T) | Raise(error: PyError)

  /** A decoded JSON document. Numbers are integers here; objects are maps (key order is not kept). */
  datatype Json =
    | JNull
    | JBool(b: bool)
    | JNumber(n: int)
    | JString(s: string)
    | JArray(items: seq<Json>)
    | JObject(fields: map<string, Json>)

  /** Python truthiness: `None`, `False`, `0`, `""`, `[]` and `{}` are false. */
  predicate Truthy(j: Json)
  {
    match j
    case JNull => false
    case JBool(b) => b
    case JNumber(n) => n != 0
    case JString(s) => s != []
    case JArray(a) => a != []
    case JObject(m) => m != map[]
  }

  /** `a or b`: the first operand when it is truthy, else the second. */
  function Or(a: Json, b: Json): Json
  {
    if Truthy(a) then a else b
  }

  /** `d.get(k, default)`. */
  function GetOr(d: map<string, Json>, k: string, default: Json): Json
  {
    if k in d then d[k] else default
  }

  /** `d.get(k)`, which yields `None` for a missing key. */
  function Get(d: map<string, Json>, k: string): Json
  {
    GetOr(d, k, JNull)
  }

  /** The end index of the slice `s[:n]` on a sequence of length `len`; a negative `n` counts from the end. */
  function SliceEnd(len: nat, n: int): (e: nat)
    ensures e <= len
    ensures n >= 0 ==> e <= n
    ensures 0 <= n <= len ==> e == n
    ensures len <= n ==> e == len
    ensures n < 0 && 0 <= len + n ==> e == len + n
    ensures n < 0 && len + n < 0 ==> e == 0
  {
    if n >= 0 then (if n < len then n else len)
    else if len + n > 0 then len + n
    else 0
  }

  /**
   * `s[:n]` on a string or a list: the first `n` items, all of them when there
   * are fewer, and for a negative `n` all but the last `-n`.
   */
  function Take<T>(s: seq<T>, n: int): (r: seq<T>)
    ensures r <= s
    ensures 0 <= n <= |s| ==> r == s[..n]
    ensures n >= 0 && |s| <= n ==> r == s
    ensures n < 0 && 0 <= |s| + n ==> r == s[..|s| + n]
    ensures n < 0 && |s| + n < 0 ==> r == []
  {
    s[..SliceEnd(|s|, n)]
  }

  /** `j[:n]` on a JSON value; `None` when Python raises `TypeError` (null, booleans, numbers, dicts). */
  function Slice(j: Json, n: int): (r: Option<Json>)
    ensures r.Some? <==> j.JString? || j.JArray?
    ensures r.Some? && j.JString? ==> r.value == JString(Take(j.s, n))
    ensures r.Some? && j.JArray? ==> r.value == JArray(Take(j.items, n))
  {
    match j
    case JString(s) => Some(JString(Take(s, n)))
    case JArray(a) => Some(JArray(Take(a, n)))
    case _ => None
  }

  /** The length of a sliced value: characters of a string, elements of a list. */
  function SizeOf(j: Json): nat
  {
    match j
    case JString(s) => |s|
    case JArray(a) => |a|
    case _ => 0
  }

  /** `c.isspace()`: the characters Python treats as white space. */
  predicate IsSpace(c: char)
  {
    var n := c as int;
    (9 <= n <= 13) || (28 <= n <= 32) || n == 0x85 || n == 0xA0 || n == 0x1680
    || (0x2000 <= n <= 0x200A) || n == 0x2028 || n == 0x2029 || n == 0x202F
    || n == 0x205F || n == 0x3000
  }

  predicate AllSpace(s: string)
  {
    forall i :: 0 <= i < |s| ==> IsSpace(s[i])
  }

  /** Blank text stays blank when more blank text is put next to it. */
  lemma AllSpaceAppend(a: string, b: string)
    requires AllSpace(a) && AllSpace(b)
    ensures AllSpace(a + b)
  {
  }

  /** `s.lstrip()`: the suffix of `s` left once its leading white space is gone. */
  function StripLeft(s: string): (r: string)
    ensures r == [] <==> AllSpace(s)
    ensures r != [] ==> !IsSpace(r[0])
    ensures |r| <= |s| && r == s[|s| - |r|..]
    ensures AllSpace(s[..|s| - |r|])
    decreases |s|
  {
    if |s| > 0 && IsSpace(s[0]) then
      var t := s[1..];
      var r := StripLeft(t);
      LeftStep(s, t, r);
      r
    else
      LeftStop(s);
      s
  }

  /** Text that does not start with white space is its own left strip. */
  lemma LeftStop(s: string)
    requires s != [] ==> !IsSpace(s[0])
    ensures s == [] <==> AllSpace(s)
    ensures s == s[|s| - |s|..]
    ensures AllSpace(s[..|s| - |s|])
  {
    assert s[0..] == s;
  }

  /** Dropping one leading space before a left strip of the rest strips the whole. */
  lemma LeftStep(s: string, t: string, r: string)
    requires |s| > 0 && IsSpace(s[0]) && t == s[1..]
    requires r != [] ==> !IsSpace(r[0])
    requires |r| <= |t| && r == t[|t| - |r|..] && AllSpace(t[..|t| - |r|])
    ensures r == [] <==> AllSpace(s)
    ensures |r| <= |s| && r == s[|s| - |r|..]
    ensures AllSpace(s[..|s| - |r|])
  {
    var i := |s| - |r|;
    assert t[i - 1..] == s[i..];
    assert s[..i] == [s[0]] + t[..i - 1];
    AllSpaceAppend([s[0]], t[..i - 1]);
    if r == [] {
      assert s[..i] == s;
    } else {
      assert s[i] == r[0];
    }
  }

  /** `s.rstrip()`: the prefix of `s` left once its trailing white space is gone. */
  function StripRight(s: string): (r: string)
    ensures r == [] <==> AllSpace(s)
    ensures r != [] ==> !IsSpace(r[|r| - 1])
    ensures r <= s
    ensures AllSpace(s[|r|..])
    decreases |s|
  {
    if |s| > 0 && IsSpace(s[|s| - 1]) then
      var p := s[..|s| - 1];
      var r := StripRight(p);
      RightStep(s, p, r);
      r
    else
      assert s != [] ==> !AllSpace(s) by { assert s != [] ==> !IsSpace(s[|s| - 1]); }
      s
  }

  /** Dropping one trailing space before a right strip of the rest strips the whole. */
  lemma RightStep(s: string, p: string, r: string)
    requires |s| > 0 && IsSpace(s[|s| - 1]) && p == s[..|s| - 1]
    requires r != [] ==> !IsSpace(r[|r| - 1])
    requires r <= p && AllSpace(p[|r|..])
    ensures r == [] <==> AllSpace(s)
    ensures r <= s
    ensures AllSpace(s[|r|..])
  {
    assert s[|r|..] == p[|r|..] + [s[|s| - 1]];
    AllSpaceAppend(p[|r|..], [s[|s| - 1]]);
    if r == [] {
      assert s[|r|..] == s;
    } else {
      assert s[|r| - 1] == r[|r| - 1];
    }
  }

  /**
   * `s.strip()`: what is left once white space is removed at both ends. It
   * neither starts nor ends with white space, and it is empty exactly when `s`
   * is blank; `StripKeepsMiddle` shows it is the piece of `s` between them.
   */
  function Strip(s: string): (r: string)
    ensures r == [] <==> AllSpace(s)
    ensures r != [] ==> !IsSpace(r[0]) && !IsSpace(r[|r| - 1])
  {
    var l := StripLeft(s);
    var r := StripRight(l);
    StripsBoth(s, l, r);
    r
  }

  /** The stripped text is the piece `s[i..j]` that only white space surrounds. */
  lemma StripKeepsMiddle(s: string)
    ensures exists i, j :: StripsAt(s, i, j) && Strip(s) == s[i..j]
  {
    var l := StripLeft(s);
    StripSurrounds(s, l, Strip(s));
    MiddleWitness(s, l, Strip(s));
  }

  /** The left strip `l` of `s` and the right strip `r` of `l` are surrounded by white space only. */
  lemma StripSurrounds(s: string, l: string, r: string)
    requires l == StripLeft(s) && r == StripRight(l)
    ensures Surrounds(s, l, r)
  {
  }

  /** `l` ends `s` after white space, and `r` starts `l` before white space. */
  predicate Surrounds(s: string, l: string, r: string)
  {
    && |l| <= |s| && l == s[|s| - |l|..] && AllSpace(s[..|s| - |l|])
    && r <= l && AllSpace(l[|r|..])
  }

  /** Text that `Surrounds` places inside `s` is a piece of `s` that only white space surrounds. */
  lemma MiddleWitness(s: string, l: string, r: string)
    requires Surrounds(s, l, r)
    ensures exists i, j :: StripsAt(s, i, j) && r == s[i..j]
  {
    StripsMiddle(s, l, r);
  }

  /** Only white space lies before position `i` and from position `j` on. */
  predicate StripsAt(s: string, i: int, j: int)
  {
    0 <= i <= j <= |s| && AllSpace(s[..i]) && AllSpace(s[j..])
  }

  /** Stripping the left end and then the right leaves text that is blank only when `s` is, with no white space at its ends. */
  lemma StripsBoth(s: string, l: string, r: string)
    requires |l| <= |s| && l == s[|s| - |l|..] && AllSpace(s[..|s| - |l|])
    requires l != [] ==> !IsSpace(l[0])
    requires r <= l && AllSpace(l[|r|..])
    requires r != [] ==> !IsSpace(r[|r| - 1])
    ensures r == [] <==> AllSpace(s)
    ensures r != [] ==> !IsSpace(r[0]) && !IsSpace(r[|r| - 1])
  {
    var i := |s| - |l|;
    assert s == s[..i] + l;
    if r == [] {
      assert l == l[|r|..];
      AllSpaceAppend(s[..i], l);
    } else {
      assert r[0] == l[0];
    }
  }

  /** Stripping the left end and then the right leaves the piece of `s` that only white space surrounds. */
  lemma StripsMiddle(s: string, l: string, r: string)
    requires |l| <= |s| && l == s[|s| - |l|..] && AllSpace(s[..|s| - |l|])
    requires r <= l && AllSpace(l[|r|..])
    ensures StripsAt(s, |s| - |l|, |s| - |l| + |r|) && r == s[|s| - |l|..|s| - |l| + |r|]
  {
    var i := |s| - |l|;
    assert s[i + |r|..] == l[|r|..];
    assert r == l[..|r|];
  }

  /** `s.startswith(p)`. */
  predicate StartsWith(s: string, p: string)
  {
    p <= s
  }

  /** A prefix of a string is a prefix of anything that string begins. */
  lemma PrefixOfAppend(a: string, b: string, p: string)
    requires StartsWith(a, p)
    ensures StartsWith(a + b, p)
  {
    assert (a + b)[..|p|] == a[..|p|];
  }

  /** Being a prefix is transitive. */
  lemma PrefixOfPrefix(s: string, p: string, q: string)
    requires StartsWith(s, p) && StartsWith(p, q)
    ensures StartsWith(s, q)
  {
    assert s[..|q|] == p[..|q|];
  }

  /** `s.endswith(p)`. */
  predicate EndsWith(s: string, p: string)
  {
    |p| <= |s| && s[|s| - |p|..] == p
  }

  /** A suffix of a string is a suffix of anything that string ends. */
  lemma SuffixOfAppend(a: string, b: string, p: string)
    requires EndsWith(b, p)
    ensures EndsWith(a + b, p)
  {
    assert (a + b)[|a + b| - |p|..] == b[|b| - |p|..];
  }

  /** `w in s` for strings: `w` occurs somewhere in `s` as a contiguous substring. */
  predicate Contains(s: string, w: string): (b: bool)
    ensures b <==> exists i :: OccursAt(s, w, i)
    decreases |s|
  {
    if OccursAt(s, w, 0) then true
    else if |s| == 0 then
      assert forall i :: OccursAt(s, w, i) ==> i == 0;
      false
    else
      var b := Contains(s[1..], w);
      OccursShift(s, w);
      b
  }

  /** Past a miss at position 0, `w` occurs in `s` exactly where it occurs in `s[1..]`, one further on. */
  lemma OccursShift(s: string, w: string)
    requires s != [] && !OccursAt(s, w, 0)
    ensures forall i :: OccursAt(s[1..], w, i) ==> OccursAt(s, w, i + 1)
    ensures forall i :: OccursAt(s, w, i) ==> i >= 1 && OccursAt(s[1..], w, i - 1)
  {
    forall i | OccursAt(s[1..], w, i) ensures OccursAt(s, w, i + 1) {
      assert s[1..][i..i + |w|] == s[i + 1..i + 1 + |w|];
    }
    forall i | OccursAt(s, w, i) ensures i >= 1 && OccursAt(s[1..], w, i - 1) {
      assert i != 0;
      var j := i - 1;
      assert j + |w| <= |s[1..]|;
      assert s[1..][j..j + |w|] == s[i..i + |w|];
    }
  }

  /** `w` occurs in `s` starting at position `i`. */
  predicate OccursAt(s: string, w: string, i: int)
  {
    0 <= i && i + |w| <= |s| && s[i..i + |w|] == w
  }

  /** Whatever surrounds it, a string contains every piece it is built from. */
  lemma ContainsInfix(a: string, w: string, b: string)
    ensures Contains(a + w + b, w)
  {
    assert (a + w + b)[|a|..|a| + |w|] == w;
    assert OccursAt(a + w + b, w, |a|);
  }

  /** Text found in a string is found in anything that string ends. */
  lemma ContainsInSuffix(a: string, b: string, w: string)
    requires Contains(b, w)
    ensures Contains(a + b, w)
  {
    var i :| OccursAt(b, w, i);
    assert (a + b)[|a| + i..|a| + i + |w|] == b[i..i + |w|];
    assert OccursAt(a + b, w, |a| + i);
  }

  /** `sep.join(parts)`: the joined text begins with the first part and ends with the last. */
  function Join(sep: string, parts: seq<string>): (r: string)
    ensures parts == [] ==> r == ""
    ensures |parts| == 1 ==> r == parts[0]
    ensures parts != [] ==> StartsWith(r, parts[0]) && EndsWith(r, parts[|parts| - 1])
    decreases |parts|
  {
    if |parts| == 0 then ""
    else if |parts| == 1 then parts[0]
    else
      var rest := Join(sep, parts[1..]);
      var whole := parts[0] + sep + rest;
      assert whole[|whole| - |rest|..] == rest;
      whole
  }

  /** Joining three parts. */
  lemma JoinThree(sep: string, a: string, b: string, c: string)
    ensures Join(sep, [a, b, c]) == a + sep + b + sep + c
  {
    assert [a, b, c][1..] == [b, c];
    assert [b, c][1..] == [c];
    JoinCons(sep, [a, b, c]);
    JoinCons(sep, [b, c]);
    Regroup(a, sep, b, c);
  }

  /** Joining two non-empty lists is joining each and putting one separator between them. */
  lemma {:induction false} JoinAppend(sep: string, a: seq<string>, b: seq<string>)
    requires a != [] && b != []
    ensures Join(sep, a + b) == Join(sep, a) + sep + Join(sep, b)
    decreases |a|
  {
    var ab := a + b;
    JoinCons(sep, ab);
    assert ab[0] == a[0];
    if |a| == 1 {
      assert ab[1..] == b;
    } else {
      assert ab[1..] == a[1..] + b;
      JoinAppend(sep, a[1..], b);
      JoinCons(sep, a);
      Regroup(a[0], sep, Join(sep, a[1..]), Join(sep, b));
    }
  }

  /** Joining with a separator regroups freely. */
  lemma Regroup(x: string, sep: string, y: string, z: string)
    ensures x + sep + (y + sep + z) == (x + sep + y) + sep + z
  {
  }

  /** Two or more parts join as the first, a separator, and the join of the rest. */
  lemma JoinCons(sep: string, parts: seq<string>)
    requires |parts| >= 2
    ensures Join(sep, parts) == parts[0] + sep + Join(sep, parts[1..])
  {
  }

  /**
   * `results = []; for x in s: results.append(f(x))` inside a `try` whose handler
   * yields nothing: either every element maps (`Some`) and the results keep the
   * input order, or the first failure discards them all (`None`).
   */
  function MapAll<A, B>(f: A -> Option<B>, s: seq<A>): (r: Option<seq<B>>)
    ensures r.Some? <==> forall k :: 0 <= k < |s| ==> f(s[k]).Some?
    ensures r.Some? ==> |r.value| == |s| && forall k :: 0 <= k < |s| ==> r.value[k] == f(s[k]).value
    decreases |s|
  {
    if s == [] then Some([])
    else
      match f(s[0])
      case None => None
      case Some(y) =>
        match MapAll(f, s[1..])
        case None => None
        case Some(ys) => Some([y] + ys)
  }
}
