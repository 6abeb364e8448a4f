/**
  * Text helpers with the semantics of the Python `str` operations the bots use:
  * `sub in s`, `s.find(sub)`, `s.split(sep)`, `s.startswith(p)`, `s.strip()`.
  */
module Strings {

  datatype Option<T> = None | Some(value: T)

  /** `sub` occurs in `s` starting at index `i`. */
  predicate OccursAt(s: string, sub: string, i: int)
  {
    0 <= i && i + |sub| <= |s| && s[i..i + |sub|] == sub
  }

  /** Python's `sub in s`. */
  predicate Contains(s: string, sub: string)
  {
    exists i | 0 <= i <= |s| - |sub| :: OccursAt(s, sub, i)
  }

  /** An occurrence fixes the characters it covers. */
  lemma {:induction false} OccursAtChar(s: string, sub: string, i: int, j: int)
    requires OccursAt(s, sub, i) && 0 <= j < |sub|
    ensures s[i + j] == sub[j]
  {
    assert s[i..i + |sub|][j] == s[i + j];
  }

  /** Python's `s.startswith(p)`. */
  predicate StartsWith(s: string, p: string)
  {
    |p| <= |s| && s[..|p|] == p
  }

  /** Python's `s.endswith(p)`. */
  predicate EndsWith(s: string, p: string)
  {
    |p| <= |s| && s[|s| - |p|..] == p
  }

  /** First occurrence of `sub` in `s` at or after `k`. */
  function IndexFrom(s: string, sub: string, k: nat): (r: Option<nat>)
    requires |sub| > 0
    ensures r.Some? ==> k <= r.value && OccursAt(s, sub, r.value)
    ensures forall j :: k <= j && (r.None? || j < r.value) ==> !OccursAt(s, sub, j)
    decreases |s| - k
  {
    if k + |sub| > |s| then None
    else if s[k..k + |sub|] == sub then Some(k)
    else IndexFrom(s, sub, k + 1)
  }

  /** Python's `s.find(sub)`, with `None` for -1. */
  function IndexOf(s: string, sub: string): (r: Option<nat>)
    requires |sub| > 0
    ensures r.None? <==> !Contains(s, sub)
    ensures r.Some? ==> OccursAt(s, sub, r.value)
    ensures r.Some? ==> forall j :: 0 <= j < r.value ==> !OccursAt(s, sub, j)
  {
    var r := IndexFrom(s, sub, 0);
    assert r.Some? ==> Contains(s, sub) by {
      if r.Some? { assert OccursAt(s, sub, r.value); }
    }
    r
  }

  /** Python's `s.split(sep)` for a non-empty separator. */
  function Split(s: string, sep: string): (r: seq<string>)
    requires |sep| > 0
    ensures |r| >= 1
    decreases |s|
  {
    match IndexOf(s, sep)
    case None => [s]
    case Some(i) => [s[..i]] + Split(s[i + |sep|..], sep)
  }

  /** Python's `sep.join(parts)`. */
  function Join(parts: seq<string>, sep: string): string
  {
    if |parts| == 0 then ""
    else if |parts| == 1 then parts[0]
    else parts[0] + sep + Join(parts[1..], sep)
  }

  /** Occurrence of `sub` in a prefix of `s` is an occurrence in `s`. */
  lemma {:induction false} OccursInPrefix(s: string, sub: string, i: nat, j: int)
    requires i <= |s|
    requires OccursAt(s[..i], sub, j)
    ensures OccursAt(s, sub, j)
  {
    assert s[..i][j..j + |sub|] == s[j..j + |sub|];
  }

  /** Occurrence of `sub` in a suffix of `s` is an occurrence in `s`, shifted. */
  lemma {:induction false} OccursInSuffix(s: string, sub: string, i: nat, j: int)
    requires i <= |s|
    requires OccursAt(s[i..], sub, j)
    ensures OccursAt(s, sub, i + j)
  {
    assert s[i..][j..j + |sub|] == s[i + j..i + j + |sub|];
  }

  /**
    * An occurrence in `a + b` lies inside `a`, inside `b`, or across the
    * seam, where it covers the first character of `b`.
    */
  lemma {:induction false} OccursInConcat(a: string, b: string, sub: string, p: int)
    requires OccursAt(a + b, sub, p)
    ensures p + |sub| <= |a| ==> OccursAt(a, sub, p)
    ensures p >= |a| ==> OccursAt(b, sub, p - |a|)
    ensures p < |a| < p + |sub| ==> b[0] == sub[|a| - p]
  {
    var s := a + b;
    assert forall k :: 0 <= k < |sub| ==> s[p + k] == sub[k] by {
      forall k | 0 <= k < |sub|
        ensures s[p + k] == sub[k]
      {
        assert s[p..p + |sub|][k] == s[p + k];
      }
    }
    if p + |sub| <= |a| {
      assert a[p..p + |sub|] == sub by {
        forall k | 0 <= k < |sub|
          ensures a[p..p + |sub|][k] == sub[k]
        {
          assert s[p + k] == a[p + k];
        }
      }
    }
    if p >= |a| {
      var q := p - |a|;
      assert b[q..q + |sub|] == sub by {
        forall k | 0 <= k < |sub|
          ensures b[q..q + |sub|][k] == sub[k]
        {
          assert s[p + k] == b[q + k];
        }
      }
    }
    if p < |a| < p + |sub| {
      assert s[p + (|a| - p)] == b[0];
    }
  }

  /** One unfolding of `Split` at the first separator. */
  lemma {:induction false} SplitStep(s: string, sep: string, i: nat)
    requires |sep| > 0 && IndexOf(s, sep) == Some(i)
    ensures Split(s, sep) == [s[..i]] + Split(s[i + |sep|..], sep)
  {
  }

  /** Splitting and joining again gives the original text back. */
  lemma {:induction false} SplitJoin(s: string, sep: string)
    requires |sep| > 0
    ensures Join(Split(s, sep), sep) == s
    decreases |s|
  {
    var r := IndexOf(s, sep);
    if r.Some? {
      var i := r.value;
      var rest := s[i + |sep|..];
      SplitJoin(rest, sep);
      SplitStep(s, sep, i);
      JoinCons(s[..i], Split(rest, sep), sep);
      assert s == s[..i] + sep + rest by {
        assert s[i..i + |sep|] == sep;
        assert s == s[..i] + s[i..i + |sep|] + rest;
      }
    }
  }

  /** Joining one more piece in front puts it and a separator before the rest. */
  lemma {:induction false} JoinCons(x: string, p: seq<string>, sep: string)
    requires |p| >= 1
    ensures Join([x] + p, sep) == x + sep + Join(p, sep)
  {
    assert ([x] + p)[1..] == p;
  }

  /** No piece of a split contains the separator. */
  lemma {:induction false} SplitPiecesFree(s: string, sep: string)
    requires |sep| > 0
    ensures forall k :: 0 <= k < |Split(s, sep)| ==> !Contains(Split(s, sep)[k], sep)
    decreases |s|
  {
    match IndexOf(s, sep)
    case None =>
    case Some(i) =>
      var rest := s[i + |sep|..];
      SplitPiecesFree(rest, sep);
      assert !Contains(s[..i], sep) by {
        forall j | 0 <= j <= |s[..i]| - |sep| && OccursAt(s[..i], sep, j)
          ensures false
        {
          OccursInPrefix(s, sep, i, j);
        }
      }
      assert Split(s, sep) == [s[..i]] + Split(rest, sep);
  }

  /** Text without the separator is a single piece. */
  lemma {:induction false} SplitWithoutSeparator(s: string, sep: string)
    requires |sep| > 0 && !Contains(s, sep)
    ensures Split(s, sep) == [s]
  {
  }

  /**
    * When the text before the first separator cannot start one (its
    * characters differ from the separator's first), that text is the
    * first piece.
    */
  lemma {:induction false} SplitAfterHead(x: string, sep: string, y: string)
    requires |sep| > 0
    requires forall k :: 0 <= k < |x| ==> x[k] != sep[0]
    ensures Split(x + sep + y, sep) == [x] + Split(y, sep)
  {
    var s := x + sep + y;
    assert OccursAt(s, sep, |x|) by {
      assert s[|x|..|x| + |sep|] == sep;
    }
    forall j | 0 <= j < |x|
      ensures !OccursAt(s, sep, j)
    {
      assert s[j] == x[j];
    }
    assert IndexOf(s, sep) == Some(|x|);
    assert s[..|x|] == x;
    assert s[|x| + |sep|..] == y;
  }

  /** A split has a second piece exactly when the separator occurs. */
  lemma {:induction false} SplitHasSecond(s: string, sep: string)
    requires |sep| > 0
    ensures |Split(s, sep)| >= 2 <==> Contains(s, sep)
  {
    match IndexOf(s, sep)
    case None =>
    case Some(i) =>
      SplitStep(s, sep, i);
  }

  /** The first piece of a split is a prefix of the text. */
  lemma {:induction false} SplitHeadPrefix(s: string, sep: string)
    requires |sep| > 0
    ensures StartsWith(s, Split(s, sep)[0])
  {
    match IndexOf(s, sep)
    case None =>
    case Some(i) =>
      SplitStep(s, sep, i);
  }

  /** The last piece of a split: what Python's `s.split(sep)[-1]` returns. */
  function LastPiece(s: string, sep: string): string
    requires |sep| > 0
  {
    var parts := Split(s, sep);
    parts[|parts| - 1]
  }

  /** The last piece contains no separator. */
  lemma {:induction false} LastPieceFree(s: string, sep: string)
    requires |sep| > 0
    ensures !Contains(LastPiece(s, sep), sep)
  {
    SplitPiecesFree(s, sep);
  }

  /** The last piece does not change when the text before the first separator is dropped. */
  lemma {:induction false} LastPieceStep(s: string, sep: string, i: nat)
    requires |sep| > 0 && IndexOf(s, sep) == Some(i)
    ensures LastPiece(s, sep) == LastPiece(s[i + |sep|..], sep)
  {
    var p := Split(s[i + |sep|..], sep);
    SplitStep(s, sep, i);
    var q := [s[..i]] + p;
    assert q[|q| - 1] == p[|p| - 1];
  }

  /** A suffix of a suffix is a suffix. */
  lemma {:induction false} EndsWithSuffix(s: string, k: nat, t: string)
    requires k <= |s| && EndsWith(s[k..], t)
    ensures EndsWith(s, t)
  {
    assert s[|s| - |t|..] == s[k..][|s[k..]| - |t|..];
  }

  /** The last piece of a split is a suffix of the text. */
  lemma {:induction false} LastPieceSuffix(s: string, sep: string)
    requires |sep| > 0
    ensures EndsWith(s, LastPiece(s, sep))
    decreases |s|
  {
    var r := IndexOf(s, sep);
    if r.Some? {
      var k := r.value + |sep|;
      LastPieceSuffix(s[k..], sep);
      LastPieceStep(s, sep, r.value);
      EndsWithSuffix(s, k, LastPiece(s, sep));
    }
  }

  /**
    * The last piece is the text after the last separator: whenever `s`
    * contains the separator, the last piece is preceded by it.
    */
  lemma {:induction false} LastPieceAfterSeparator(s: string, sep: string)
    requires |sep| > 0 && Contains(s, sep)
    ensures EndsWith(s, sep + LastPiece(s, sep))
    decreases |s|
  {
    var i := IndexOf(s, sep).value;
    var k := i + |sep|;
    var rest := s[k..];
    LastPieceStep(s, sep, i);
    var last := LastPiece(rest, sep);
    var t := sep + last;
    if Contains(rest, sep) {
      LastPieceAfterSeparator(rest, sep);
      EndsWithSuffix(s, k, t);
    } else {
      assert Split(rest, sep) == [rest];
      assert s[i..k] == sep;
      assert s[i..] == t;
      EndsWithSuffix(s, i, t);
    }
  }

  /** Python's `str.isspace()` for one character (`\s` in `re`). */
  predicate IsSpace(c: char)
  {
    var n := c as int;
    n == 0x20 || 0x09 <= n <= 0x0D || 0x1C <= n <= 0x1F || n == 0x85 || n == 0xA0 || n == 0x1680
    || 0x2000 <= n <= 0x200A || n == 0x2028 || n == 0x2029 || n == 0x202F || n == 0x205F || n == 0x3000
  }

  /** Index of the first non-whitespace character at or after `i`. */
  function SkipSpaces(s: string, i: nat): (r: nat)
    requires i <= |s|
    ensures i <= r <= |s|
    decreases |s| - i
  {
    if i < |s| && IsSpace(s[i]) then SkipSpaces(s, i + 1) else i
  }

  /** Index just after the last non-whitespace character before `j`, not below `lo`. */
  function SkipSpacesBack(s: string, lo: nat, j: nat): (r: nat)
    requires lo <= j <= |s|
    ensures lo <= r <= j
    decreases j
  {
    if j > lo && IsSpace(s[j - 1]) then SkipSpacesBack(s, lo, j - 1) else j
  }

  /** Start of the text `strip` keeps. */
  function StripFrom(s: string): nat
  {
    SkipSpaces(s, 0)
  }

  /** End of the text `strip` keeps. */
  function StripTo(s: string): (r: nat)
    ensures StripFrom(s) <= r <= |s|
  {
    SkipSpacesBack(s, StripFrom(s), |s|)
  }

  /** Python's `s.strip()`. */
  function Strip(s: string): string
  {
    s[StripFrom(s)..StripTo(s)]
  }

  lemma {:induction false} SkipSpacesSpec(s: string, i: nat)
    requires i <= |s|
    ensures forall k :: i <= k < SkipSpaces(s, i) ==> IsSpace(s[k])
    ensures SkipSpaces(s, i) < |s| ==> !IsSpace(s[SkipSpaces(s, i)])
    decreases |s| - i
  {
    if i < |s| && IsSpace(s[i]) {
      SkipSpacesSpec(s, i + 1);
    }
  }

  lemma {:induction false} SkipSpacesBackSpec(s: string, lo: nat, j: nat)
    requires lo <= j <= |s|
    ensures forall k :: SkipSpacesBack(s, lo, j) <= k < j ==> IsSpace(s[k])
    ensures SkipSpacesBack(s, lo, j) > lo ==> !IsSpace(s[SkipSpacesBack(s, lo, j) - 1])
    decreases j
  {
    if j > lo && IsSpace(s[j - 1]) {
      SkipSpacesBackSpec(s, lo, j - 1);
    }
  }

  /** Text that neither starts nor ends with whitespace. */
  predicate Trimmed(s: string)
  {
    s == [] || (!IsSpace(s[0]) && !IsSpace(s[|s| - 1]))
  }

  /**
    * `strip` removes exactly the surrounding whitespace: what it keeps is
    * a slice of the input with only whitespace before and after it, and
    * it neither starts nor ends with whitespace.
    */
  lemma {:induction false} StripSpec(s: string)
    ensures Trimmed(Strip(s))
    ensures forall k :: 0 <= k < StripFrom(s) ==> IsSpace(s[k])
    ensures forall k :: StripTo(s) <= k < |s| ==> IsSpace(s[k])
  {
    var a := StripFrom(s);
    var b := StripTo(s);
    SkipSpacesSpec(s, 0);
    SkipSpacesBackSpec(s, a, |s|);
    if a < b {
      assert Strip(s)[0] == s[a];
      assert Strip(s)[|Strip(s)| - 1] == s[b - 1];
    }
  }

  /** Text that is already trimmed is left as it is. */
  lemma {:induction false} StripTrimmed(s: string)
    requires Trimmed(s)
    ensures Strip(s) == s
  {
  }

  /** `strip` is idempotent. */
  lemma {:induction false} StripIdempotent(s: string)
    ensures Strip(Strip(s)) == Strip(s)
  {
    StripSpec(s);
    StripTrimmed(Strip(s));
  }

  lemma {:induction false} SkipSpacesAppend(s: string, x: string, i: nat)
    requires i <= |s|
    requires exists k :: i <= k < |s| && !IsSpace(s[k])
    ensures SkipSpaces(s + x, i) == SkipSpaces(s, i)
    decreases |s| - i
  {
    assert (s + x)[i] == s[i];
    if IsSpace(s[i]) {
      var k :| i <= k < |s| && !IsSpace(s[k]);
      assert k != i;
      SkipSpacesAppend(s, x, i + 1);
    }
  }

  lemma {:induction false} SkipSpacesBackAppend(s: string, x: string, lo: nat, j: nat)
    requires lo <= j <= |s|
    ensures SkipSpacesBack(s + x, lo, j) == SkipSpacesBack(s, lo, j)
    decreases j
  {
    if j > lo {
      assert (s + x)[j - 1] == s[j - 1];
      SkipSpacesBackAppend(s, x, lo, j - 1);
    }
  }

  /** Whitespace added at the end is stripped away again. */
  lemma {:induction false} StripTrailingSpace(s: string, c: char)
    requires IsSpace(c)
    ensures Strip(s + [c]) == Strip(s)
  {
    var t := s + [c];
    if exists k :: 0 <= k < |s| && !IsSpace(s[k]) {
      SkipSpacesAppend(s, [c], 0);
      var a := StripFrom(s);
      SkipSpacesSpec(s, 0);
      assert a < |s|;
      assert t[|t| - 1] == c;
      assert SkipSpacesBack(t, a, |t|) == SkipSpacesBack(t, a, |s|);
      SkipSpacesBackAppend(s, [c], a, |s|);
      assert t[a..StripTo(t)] == s[a..StripTo(s)];
    } else {
      SkipSpacesSpec(s, 0);
      SkipSpacesSpec(t, 0);
    }
  }
}
