/**
  * Text files as lines: Python's `f.readlines()` and the inverse the bots
  * rely on when they rewrite a record line by line (`f.write(line)` for
  * each line, which concatenates them).
  */
module Lines {
  import opened Strings

  /** The text the lines make when written one after another. */
  function Concat(ls: seq<string>): string
  {
    if ls == [] then "" else ls[0] + Concat(ls[1..])
  }

  /** Writing one more line appends it to the text. */
  lemma {:induction false} ConcatSnoc(ls: seq<string>, l: string)
    ensures Concat(ls + [l]) == Concat(ls) + l
    decreases |ls|
  {
    if ls == [] {
      assert [l][1..] == [];
    } else {
      assert (ls + [l])[1..] == ls[1..] + [l];
      ConcatSnoc(ls[1..], l);
    }
  }

  /** What occurs in one line occurs in the written-out text. */
  lemma {:induction false} ContainedLine(ls: seq<string>, k: nat, m: string)
    requires k < |ls| && Contains(ls[k], m)
    ensures Contains(Concat(ls), m)
    decreases k
  {
    if k == 0 {
      var p :| 0 <= p <= |ls[0]| - |m| && OccursAt(ls[0], m, p);
      var c := Concat(ls);
      assert c[..|ls[0]|] == ls[0];
      OccursInPrefix(c, m, |ls[0]|, p);
    } else {
      assert ls[1..][k - 1] == ls[k];
      ContainedLine(ls[1..], k - 1, m);
      var p :| 0 <= p <= |Concat(ls[1..])| - |m| && OccursAt(Concat(ls[1..]), m, p);
      var c := Concat(ls);
      assert c[|ls[0]|..] == Concat(ls[1..]);
      OccursInSuffix(c, m, |ls[0]|, p);
    }
  }

  /** Python's `f.readlines()`: the text cut after every newline, a non-empty rest kept. */
  function ReadLines(c: string): seq<string>
    decreases |c|
  {
    if c == [] then []
    else match IndexOf(c, "\n")
      case None => [c]
      case Some(i) => [c[..i + 1]] + ReadLines(c[i + 1..])
  }

  /** A line as `readlines` returns it: non-empty, a newline at most at its end. */
  predicate IsLine(l: string)
  {
    |l| > 0 && '\n' !in l[..|l| - 1]
  }

  /** A line that ends with a newline. */
  predicate Terminated(l: string)
  {
    |l| > 0 && l[|l| - 1] == '\n'
  }

  /** Every element a line, all but the last terminated. */
  predicate WellFormed(ls: seq<string>)
  {
    (forall k :: 0 <= k < |ls| ==> IsLine(ls[k]))
    && (forall k :: 0 <= k < |ls| - 1 ==> Terminated(ls[k]))
  }

  lemma {:induction false} OccursAtSingle(s: string, c: char, j: int)
    ensures OccursAt(s, [c], j) <==> 0 <= j < |s| && s[j] == c
  {
    if 0 <= j < |s| {
      assert s[j..j + 1] == [s[j]];
    }
  }

  /** The first newline of a text that starts with a terminated line closes that line. */
  lemma {:induction false} FirstNewline(l: string, rest: string)
    requires IsLine(l) && Terminated(l)
    ensures IndexOf(l + rest, "\n") == Some(|l| - 1)
  {
    var c := l + rest;
    OccursAtSingle(c, '\n', |l| - 1);
    forall j | 0 <= j < |l| - 1
      ensures !OccursAt(c, "\n", j)
    {
      OccursAtSingle(c, '\n', j);
      assert c[j] == l[..|l| - 1][j];
    }
  }

  /** Text without a newline is read as one line. */
  lemma {:induction false} NoNewlineOneLine(c: string)
    requires c != [] && '\n' !in c
    ensures ReadLines(c) == [c]
  {
    forall j | 0 <= j <= |c| - 1
      ensures !OccursAt(c, "\n", j)
    {
      OccursAtSingle(c, '\n', j);
    }
  }

  /** One unfolding of `readlines` at the first newline. */
  lemma {:induction false} ReadLinesStep(c: string, i: nat)
    requires IndexOf(c, "\n") == Some(i)
    ensures ReadLines(c) == [c[..i + 1]] + ReadLines(c[i + 1..])
  {
  }

  /** Writing back what `readlines` returned reproduces the file. */
  lemma {:induction false} ReadLinesConcat(c: string)
    ensures Concat(ReadLines(c)) == c
    decreases |c|
  {
    if c != [] {
      var r := IndexOf(c, "\n");
      if r.Some? {
        var i := r.value;
        ReadLinesConcat(c[i + 1..]);
        ReadLinesStep(c, i);
        var ls := [c[..i + 1]] + ReadLines(c[i + 1..]);
        assert ls[1..] == ReadLines(c[i + 1..]);
        assert c == c[..i + 1] + c[i + 1..];
      }
    }
  }

  /** `readlines` returns well-formed lines. */
  lemma {:induction false} ReadLinesWellFormed(c: string)
    ensures WellFormed(ReadLines(c))
    decreases |c|
  {
    if c != [] {
      var r := IndexOf(c, "\n");
      if r.Some? {
        var i := r.value;
        ReadLinesWellFormed(c[i + 1..]);
        ReadLinesStep(c, i);
        var l := c[..i + 1];
        OccursAtSingle(c, '\n', i);
        forall j | 0 <= j < i
          ensures c[j] != '\n'
        {
          OccursAtSingle(c, '\n', j);
        }
        assert l[..|l| - 1] == c[..i];
        assert Terminated(l);
      } else {
        assert '\n' !in c by {
          forall j | 0 <= j < |c|
            ensures c[j] != '\n'
          {
            OccursAtSingle(c, '\n', j);
          }
        }
        assert c[..|c| - 1] <= c;
      }
    }
  }

  /** Reading back well-formed lines that were written out gives the same lines. */
  lemma {:induction false} ConcatReadLines(ls: seq<string>)
    requires WellFormed(ls)
    ensures ReadLines(Concat(ls)) == ls
    decreases |ls|
  {
    if ls != [] {
      var l := ls[0];
      var rest := Concat(ls[1..]);
      assert WellFormed(ls[1..]) by {
        forall k | 0 <= k < |ls[1..]|
          ensures IsLine(ls[1..][k])
        {
          assert ls[1..][k] == ls[k + 1];
        }
      }
      ConcatReadLines(ls[1..]);
      if Terminated(l) {
        FirstNewline(l, rest);
        ReadLinesStep(l + rest, |l| - 1);
        assert (l + rest)[..|l|] == l;
        assert (l + rest)[|l|..] == rest;
      } else {
        assert |ls| == 1;
        assert l[..|l| - 1] + [l[|l| - 1]] == l;
        assert '\n' !in l;
        assert Concat(ls) == l;
        NoNewlineOneLine(l);
      }
    }
  }

  /**
    * When `a` is empty or ends with a newline, a newline-free pattern occurs
    * in `a + b` exactly when it occurs in `a` or in `b`.
    */
  lemma {:induction false} ContainsAcrossNewline(a: string, b: string, m: string)
    requires |m| > 0 && '\n' !in m
    requires a == [] || Terminated(a)
    ensures Contains(a + b, m) <==> Contains(a, m) || Contains(b, m)
  {
    var s := a + b;
    if Contains(s, m) {
      var p :| 0 <= p <= |s| - |m| && OccursAt(s, m, p);
      OccursInConcat(a, b, m, p);
      if p < |a| < p + |m| {
        OccursAtChar(s, m, p, |a| - 1 - p);
        assert false;
      }
    }
    if Contains(a, m) {
      var p :| 0 <= p <= |a| - |m| && OccursAt(a, m, p);
      assert s[p..p + |m|] == a[p..p + |m|];
      assert OccursAt(s, m, p);
    }
    if Contains(b, m) {
      var p :| 0 <= p <= |b| - |m| && OccursAt(b, m, p);
      assert s[|a| + p..|a| + p + |m|] == b[p..p + |m|];
      assert OccursAt(s, m, |a| + p);
    }
  }

  /** All lines but the last end with a newline. */
  predicate Separated(ls: seq<string>)
  {
    forall k :: 0 <= k < |ls| - 1 ==> Terminated(ls[k])
  }

  /**
    * A newline-free pattern occurs in the written-out lines exactly when it
    * occurs in one of them: no occurrence spans two lines.
    */
  lemma {:induction false} ContainsInLines(ls: seq<string>, m: string)
    requires |m| > 0 && '\n' !in m
    requires Separated(ls)
    ensures Contains(Concat(ls), m) <==> exists k :: 0 <= k < |ls| && Contains(ls[k], m)
    decreases |ls|
  {
    if ls != [] {
      assert Separated(ls[1..]) by {
        forall k | 0 <= k < |ls[1..]| - 1
          ensures Terminated(ls[1..][k])
        {
          assert ls[1..][k] == ls[k + 1];
        }
      }
      ContainsInLines(ls[1..], m);
      if |ls| > 1 {
        ContainsAcrossNewline(ls[0], Concat(ls[1..]), m);
      } else {
        assert Concat(ls) == ls[0] + "";
        assert ls[0] + "" == ls[0];
      }
      if exists k :: 0 <= k < |ls| && Contains(ls[k], m) {
        var k :| 0 <= k < |ls| && Contains(ls[k], m);
        if k > 0 {
          assert ls[1..][k - 1] == ls[k];
        }
      }
      if exists k :: 0 <= k < |ls[1..]| && Contains(ls[1..][k], m) {
        var k :| 0 <= k < |ls[1..]| && Contains(ls[1..][k], m);
        assert ls[k + 1] == ls[1..][k];
      }
    }
  }
}
