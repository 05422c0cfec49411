/** Facts about sequences, prefixes and rearrangements that several modules need. */
module Sequences {
  lemma TakeNext<T>(s: seq<T>, k: nat)
    requires k < |s|
    ensures s[..k + 1] == s[..k] + [s[k]]
  {
  }

  lemma PrefixNext<T>(s: seq<T>, k: nat)
    requires k < |s|
    ensures s[..k + 1][..k] == s[..k] && s[..k + 1][k] == s[k]
  {
  }

  lemma TakeAll<T>(s: seq<T>)
    ensures s[..|s|] == s
  {
  }

  lemma FrontLast<T>(s: seq<T>)
    requires s != []
    ensures s[..|s| - 1] + [s[|s| - 1]] == s
  {
  }

  lemma TailFront<T>(s: seq<T>)
    requires |s| > 1
    ensures s[1..][..|s| - 2] == s[..|s| - 1][1..] && s[..|s| - 1][0] == s[0]
  {
  }

  lemma TwiceIn<T>(s: seq<T>, i: nat, j: nat)
    requires i < j < |s| && s[i] == s[j]
    ensures multiset(s)[s[i]] >= 2
  {
    assert s == s[..i + 1] + s[i + 1..];
    assert s[..i + 1][i] == s[i] && s[i + 1..][j - i - 1] == s[j];
    assert s[i] in multiset(s[..i + 1]) && s[i] in multiset(s[i + 1..]);
  }

  lemma SliceIsPart<T>(s: seq<T>, from: nat, to: nat)
    requires from <= to <= |s|
    ensures multiset(s[from..to]) <= multiset(s)
  {
    assert s == s[..from] + s[from..to] + s[to..];
  }

  /** A rearrangement has the same members. */
  lemma SameMembers<T>(a: seq<T>, b: seq<T>, x: T)
    requires multiset(a) == multiset(b)
    ensures x in a <==> x in b
  {
    assert x in multiset(a) <==> x in multiset(b);
  }

  /** A part as long as the whole is a rearrangement of it. */
  lemma WholePart<T>(part: seq<T>, whole: seq<T>)
    requires multiset(part) <= multiset(whole)
    ensures |part| <= |whole|
    ensures |part| == |whole| <==> multiset(part) == multiset(whole)
  {
    var rest := multiset(whole) - multiset(part);
    assert multiset(whole) == multiset(part) + rest;
    assert |multiset(part)| == |part| && |multiset(whole)| == |whole|;
  }

  /** A part that is not the whole misses something. */
  lemma Missed<T>(part: seq<T>, whole: seq<T>) returns (x: T)
    requires multiset(part) <= multiset(whole) && multiset(part) != multiset(whole)
    ensures x in whole && multiset(part)[x] < multiset(whole)[x]
  {
    x :| multiset(part)[x] != multiset(whole)[x];
    assert x in multiset(whole);
  }

  /** One item made from each row. */
  function Made<R, T>(rows: seq<R>, make: R -> T): seq<T> {
    seq(|rows|, k requires 0 <= k < |rows| => make(rows[k]))
  }

  lemma MadeAround<R, T>(before: seq<R>, r: R, after: seq<R>, make: R -> T)
    ensures multiset(Made(before + [r] + after, make)) == multiset(Made(before + after, make)) + multiset{make(r)}
  {
    assert Made(before + [r] + after, make) == Made(before, make) + [make(r)] + Made(after, make);
    assert Made(before + after, make) == Made(before, make) + Made(after, make);
  }

  lemma Around<R>(before: seq<R>, r: R, after: seq<R>)
    ensures multiset(before + [r] + after) == multiset(before + after) + multiset{r}
  {
  }

  /** A rearrangement of a list is its first item put in somewhere, and a rearrangement of the others around it. */
  lemma FirstMoved<R>(a: seq<R>, b: seq<R>) returns (before: seq<R>, after: seq<R>)
    requires multiset(a) == multiset(b) && a != []
    ensures b == before + [a[0]] + after && multiset(a[1..]) == multiset(before + after)
  {
    SameMembers(a, b, a[0]);
    var k :| 0 <= k < |b| && b[k] == a[0];
    before, after := b[..k], b[k + 1..];
    assert b == before + [a[0]] + after;
    assert a == [] + [a[0]] + a[1..] && [] + a[1..] == a[1..];
    Around([], a[0], a[1..]);
    Around(before, a[0], after);
    SameRest(multiset(a[1..]), multiset(before + after), a[0]);
  }

  lemma SameRest<R>(a: multiset<R>, b: multiset<R>, r: R)
    requires a + multiset{r} == b + multiset{r}
    ensures a == b
  {
    assert a == (a + multiset{r}) - multiset{r};
    assert b == (b + multiset{r}) - multiset{r};
  }

  /** What is made item by item from rearranged rows is rearranged as well. */
  lemma {:induction false} MadeRearranged<R, T>(a: seq<R>, b: seq<R>, make: R -> T)
    requires multiset(a) == multiset(b)
    ensures multiset(Made(a, make)) == multiset(Made(b, make))
    decreases |a|
  {
    if a == [] {
      assert |multiset(b)| == 0;
    } else {
      var before, after := FirstMoved(a, b);
      MadeRearranged(a[1..], before + after, make);
      MadeAround([], a[0], a[1..], make);
      assert [] + [a[0]] + a[1..] == a && [] + a[1..] == a[1..];
      MadeAround(before, a[0], after, make);
    }
  }
}
