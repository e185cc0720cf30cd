/**
  The slice of JavaScript value semantics that the proxy relies on: parsed JSON
  values (plus `undefined`, which every missing property read produces),
  truthiness, `a || b`, property reads with and without `?.`, and
  `String.prototype.replace` with a global regular expression made of literal
  characters (module JsString).
 */
module Js {

  /** A JavaScript value as it comes out of `JSON.parse`, plus `undefined`. */
  datatype Json =
    | Undefined
    | Null
    | Bool(b: bool)
    | Num(n: real)
    | Str(s: string)
    | Arr(items: seq<Json>)
    | Obj(fields: map<string, Json>)

  /** `v == null`: the two values whose property reads throw a TypeError. */
  predicate Nullish(v: Json) {
    v.Undefined? || v.Null?
  }

  /** JavaScript truthiness (NaN cannot come out of JSON, so only 0 is a falsy number). */
  predicate Truthy(v: Json) {
    match v
    case Undefined => false
    case Null => false
    case Bool(b) => b
    case Num(n) => n != 0.0
    case Str(s) => s != ""
    case Arr(_) => true
    case Obj(_) => true
  }

  /** `v || fallback` */
  function Or(v: Json, fallback: Json): (r: Json)
    ensures Truthy(v) ==> r == v
    ensures !Truthy(v) ==> r == fallback
    ensures Truthy(r) <==> Truthy(v) || Truthy(fallback)
    ensures r == v || r == fallback
  {
    if Truthy(v) then v else fallback
  }

  /**
    `v.key` for a value whose read does not throw. Own members of a plain
    object, `length` of an array or a string; every other read (including the
    prototype chain, which holds none of the keys the proxy reads) is
    `undefined`.
   */
  function Get(v: Json, key: string): (r: Json)
    requires !Nullish(v)
    ensures v.Obj? ==> r == (if key in v.fields then v.fields[key] else Undefined)
    ensures (v.Num? || v.Bool?) ==> r == Undefined
  {
    match v
    case Obj(m) => if key in m then m[key] else Undefined
    case Arr(items) => if key == "length" then Num(|items| as real) else Undefined
    case Str(s) => if key == "length" then Num(|s| as real) else Undefined
    case _ => Undefined
  }

  /** `v?.key`: `undefined` when `v` is null or undefined, otherwise `v.key`. */
  function GetOpt(v: Json, key: string): (r: Json)
    ensures Nullish(v) ==> r == Undefined
    ensures !Nullish(v) ==> r == Get(v, key)
  {
    if Nullish(v) then Undefined else Get(v, key)
  }

  /** `v[0]` for a value whose read does not throw. */
  function First(v: Json): (r: Json)
    requires !Nullish(v)
    ensures v.Arr? && v.items != [] ==> r == v.items[0]
    ensures v.Arr? && v.items == [] ==> r == Undefined
  {
    match v
    case Arr(items) => if items != [] then items[0] else Undefined
    case Str(s) => if s != [] then Str(s[..1]) else Undefined
    case Obj(m) => if "0" in m then m["0"] else Undefined
    case _ => Undefined
  }

  /**
    `v > 0` under JavaScript's relational comparison. `undefined` and objects
    convert to NaN, `null` and `false` to 0, `true` to 1. Strings and arrays
    would be converted through number parsing, which is not modelled: they
    compare as not greater than 0.
   */
  predicate GreaterThanZero(v: Json) {
    match v
    case Num(n) => n > 0.0
    case Bool(b) => b
    case _ => false
  }
}

/**
  `String.prototype.replace` with a global regular expression made of literal
  characters, and the facts about it that the parser relies on.
 */
module JsString {

  /** `pat` occurs in `s` starting at index `i`. */
  predicate MatchAt(s: string, pat: string, i: nat) {
    i + |pat| <= |s| && s[i..i + |pat|] == pat
  }

  /**
    `s.replace(/pat/g, rep)` for a pattern of literal characters and a
    replacement without `$` sequences: scanning from the left, every match is
    replaced, matches do not overlap, and the inserted text is not scanned
    again.
   */
  function ReplaceAll(s: string, pat: string, rep: string): (r: string)
    requires pat != ""
    decreases |s|
  {
    if |s| < |pat| then s
    else if MatchAt(s, pat, 0) then rep + ReplaceAll(s[|pat|..], pat, rep)
    else [s[0]] + ReplaceAll(s[1..], pat, rep)
  }

  /** Replacing a pattern by itself leaves every string unchanged. */
  lemma {:induction false} ReplaceAllSelf(s: string, pat: string)
    requires pat != ""
    ensures ReplaceAll(s, pat, pat) == s
    decreases |s|
  {
    if |s| < |pat| {
    } else if MatchAt(s, pat, 0) {
      ReplaceAllSelf(s[|pat|..], pat);
      assert s == s[..|pat|] + s[|pat|..];
    } else {
      ReplaceAllSelf(s[1..], pat);
      assert s == [s[0]] + s[1..];
    }
  }

  /** A string in which the pattern does not occur is left unchanged. */
  lemma {:induction false} ReplaceAllNoMatch(s: string, pat: string, rep: string)
    requires pat != ""
    requires forall i: nat :: !MatchAt(s, pat, i)
    ensures ReplaceAll(s, pat, rep) == s
    decreases |s|
  {
    if |s| < |pat| {
    } else {
      assert !MatchAt(s, pat, 0);
      forall i: nat ensures !MatchAt(s[1..], pat, i) {
        assert !MatchAt(s, pat, i + 1);
        if i + |pat| <= |s[1..]| {
          assert s[1..][i..i + |pat|] == s[i + 1..i + 1 + |pat|];
        }
      }
      ReplaceAllNoMatch(s[1..], pat, rep);
      assert s == [s[0]] + s[1..];
    }
  }

  /** A match in a suffix is a match in the whole string, shifted. */
  lemma {:induction false} MatchAtSuffix(s: string, pat: string, k: nat, j: nat)
    requires k <= |s|
    ensures MatchAt(s[k..], pat, j) <==> MatchAt(s, pat, k + j)
  {
    if k + j + |pat| <= |s| {
      assert s[k..][j..j + |pat|] == s[k + j..k + j + |pat|];
    }
  }

  /** A first character at which no match starts is copied. */
  lemma {:induction false} ReplaceAllCopiesFirst(s: string, pat: string, rep: string)
    requires pat != "" && s != [] && !MatchAt(s, pat, 0)
    ensures ReplaceAll(s, pat, rep) == [s[0]] + ReplaceAll(s[1..], pat, rep)
  {
    if |s| < |pat| {
      assert ReplaceAll(s[1..], pat, rep) == s[1..];
      assert s == [s[0]] + s[1..];
    }
  }

  /** The characters before the first match are copied unchanged, and replacement goes on from there. */
  lemma {:induction false} ReplaceAllCopies(s: string, pat: string, rep: string, i: nat)
    requires pat != "" && i <= |s|
    requires forall j: nat :: j < i ==> !MatchAt(s, pat, j)
    ensures ReplaceAll(s, pat, rep) == s[..i] + ReplaceAll(s[i..], pat, rep)
    decreases i
  {
    if i == 0 {
      assert s[..0] == [] && s[0..] == s;
    } else {
      ReplaceAllCopies(s, pat, rep, i - 1);
      var u := s[i - 1..];
      MatchAtSuffix(s, pat, i - 1, 0);
      ReplaceAllCopiesFirst(u, pat, rep);
      assert u[1..] == s[i..];
      var r := ReplaceAll(s[i..], pat, rep);
      assert s[..i - 1] + ([s[i - 1]] + r) == s[..i] + r;
    }
  }

  /**
    The leftmost match is the first one replaced: the text before it is copied,
    and scanning resumes right after the match, never inside the inserted text.
   */
  lemma {:induction false} ReplaceAllLeftmost(s: string, pat: string, rep: string, i: nat)
    requires pat != ""
    requires MatchAt(s, pat, i)
    requires forall j: nat :: j < i ==> !MatchAt(s, pat, j)
    ensures ReplaceAll(s, pat, rep) == s[..i] + rep + ReplaceAll(s[i + |pat|..], pat, rep)
  {
    ReplaceAllCopies(s, pat, rep, i);
    var u := s[i..];
    assert u[0..|pat|] == pat && u[|pat|..] == s[i + |pat|..];
  }

  /** A string holding the pattern exactly once, at `|p|`, has just that occurrence replaced. */
  lemma {:induction false} ReplaceAllOnce(p: string, pat: string, rep: string, q: string)
    requires pat != ""
    requires forall i: nat :: i != |p| ==> !MatchAt(p + pat + q, pat, i)
    ensures ReplaceAll(p + pat + q, pat, rep) == p + rep + q
  {
    var s := p + pat + q;
    var k := |p| + |pat|;
    assert s[|p|..k] == pat;
    ReplaceAllLeftmost(s, pat, rep, |p|);
    NoMatchInSuffix(s, pat, k);
    assert s[..|p|] == p && s[k..] == q;
    ReplaceAllNoMatch(q, pat, rep);
  }

  /** A suffix past every match holds no match. */
  lemma {:induction false} NoMatchInSuffix(s: string, pat: string, k: nat)
    requires k <= |s|
    requires forall i: nat :: k <= i ==> !MatchAt(s, pat, i)
    ensures forall i: nat :: !MatchAt(s[k..], pat, i)
  {
    forall i: nat ensures !MatchAt(s[k..], pat, i) {
      MatchAtSuffix(s, pat, k, i);
    }
  }

  /** A replacement as long as the pattern keeps the length. */
  lemma {:induction false} ReplaceAllSameLength(s: string, pat: string, rep: string)
    requires pat != "" && |rep| == |pat|
    ensures |ReplaceAll(s, pat, rep)| == |s|
    decreases |s|
  {
    if |s| < |pat| {
    } else if MatchAt(s, pat, 0) {
      ReplaceAllSameLength(s[|pat|..], pat, rep);
    } else {
      ReplaceAllSameLength(s[1..], pat, rep);
    }
  }

  /** A replacement at least as long as the pattern never shortens the string. */
  lemma {:induction false} ReplaceAllNotShorter(s: string, pat: string, rep: string)
    requires pat != "" && |pat| <= |rep|
    ensures |s| <= |ReplaceAll(s, pat, rep)|
    decreases |s|
  {
    if |s| < |pat| {
    } else if MatchAt(s, pat, 0) {
      ReplaceAllNotShorter(s[|pat|..], pat, rep);
    } else {
      ReplaceAllNotShorter(s[1..], pat, rep);
    }
  }
}
