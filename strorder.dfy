/**
 * Python's ordering of `str` values (lexicographic by code point) and
 * `sorted(set(xs))` on a list of strings, as the training script uses
 * it to build the vocabulary and the class list.
 */
module StrOrder {

  /** `a < b` for Python strings. */
  predicate Less(a: string, b: string) {
    if a == [] then b != []
    else if b == [] then false
    else a[0] < b[0] || (a[0] == b[0] && Less(a[1..], b[1..]))
  }

  lemma {:induction false} LessIrreflexive(a: string)
    ensures !Less(a, a)
  {
    if a != [] {
      LessIrreflexive(a[1..]);
    }
  }

  lemma {:induction false} LessTransitive(a: string, b: string, c: string)
    requires Less(a, b) && Less(b, c)
    ensures Less(a, c)
  {
    if a != [] && b != [] && c != [] && a[0] == b[0] && b[0] == c[0] {
      LessTransitive(a[1..], b[1..], c[1..]);
    }
  }

  lemma {:induction false} LessTotal(a: string, b: string)
    ensures a == b || Less(a, b) || Less(b, a)
  {
    if a != [] && b != [] && a[0] == b[0] {
      LessTotal(a[1..], b[1..]);
      if a[1..] == b[1..] {
        assert a == [a[0]] + a[1..] && b == [b[0]] + b[1..];
      }
    }
  }

  /** Sorted without duplicates. */
  predicate StrictlyIncreasing(s: seq<string>) {
    forall i, j :: 0 <= i < j < |s| ==> Less(s[i], s[j])
  }

  /** Adds `x` to a strictly increasing list unless it is already there. */
  function InsertSorted(x: string, s: seq<string>): (r: seq<string>)
    requires StrictlyIncreasing(s)
    ensures StrictlyIncreasing(r)
    ensures forall y :: y in r <==> y == x || y in s
  {
    if s == [] then [x]
    else if x == s[0] then s
    else if Less(x, s[0]) then
      InsertFront(x, s);
      [x] + s
    else
      LessTotal(x, s[0]);
      var rest := InsertSorted(x, s[1..]);
      InsertBehind(s[0], rest, x, s[1..]);
      [s[0]] + rest
  }

  lemma InsertFront(x: string, s: seq<string>)
    requires StrictlyIncreasing(s) && s != [] && Less(x, s[0])
    ensures StrictlyIncreasing([x] + s)
  {
    forall i, j | 0 <= i < j < |[x] + s| ensures Less(([x] + s)[i], ([x] + s)[j]) {
      if i == 0 && j > 1 {
        LessTransitive(x, s[0], s[j - 1]);
      }
    }
  }

  lemma InsertBehind(h: string, rest: seq<string>, x: string, tail: seq<string>)
    requires StrictlyIncreasing(rest) && StrictlyIncreasing([h] + tail)
    requires Less(h, x)
    requires forall y :: y in rest ==> y == x || y in tail
    ensures StrictlyIncreasing([h] + rest)
  {
    forall i, j | 0 <= i < j < |[h] + rest| ensures Less(([h] + rest)[i], ([h] + rest)[j]) {
      var y := rest[j - 1];
      assert ([h] + rest)[j] == y;
      if i == 0 {
        assert y in rest;
        if y != x {
          var k :| 0 <= k < |tail| && tail[k] == y;
          assert ([h] + tail)[k + 1] == y;
          assert Less(([h] + tail)[0], ([h] + tail)[k + 1]);
        }
      } else {
        assert ([h] + rest)[i] == rest[i - 1];
      }
    }
  }

  /** `sorted(set(xs))`. */
  function SortedSet(xs: seq<string>): (r: seq<string>)
    ensures StrictlyIncreasing(r)
    ensures forall y :: y in r <==> y in xs
  {
    if xs == [] then [] else InsertSorted(xs[|xs| - 1], SortedSet(xs[..|xs| - 1]))
  }

  /** A strictly increasing list is the only sorted, duplicate-free arrangement of its elements. */
  lemma {:induction false} StrictlyIncreasingUnique(a: seq<string>, b: seq<string>)
    requires StrictlyIncreasing(a) && StrictlyIncreasing(b)
    requires forall y :: y in a <==> y in b
    ensures a == b
  {
    assert a != [] ==> a[0] in b;
    assert b != [] ==> b[0] in a;
    if a != [] && b != [] {
      assert a[0] in b;
      assert b[0] in a;
      LessTotal(a[0], b[0]);
      if Less(a[0], b[0]) {
        var k :| 0 <= k < |b| && b[k] == a[0];
        if k > 0 {
          LessTransitive(a[0], b[0], b[k]);
        }
        LessIrreflexive(a[0]);
      }
      assert a[0] == b[0];
      forall y ensures y in a[1..] <==> y in b[1..] {
        if y in a[1..] {
          var k :| 1 <= k < |a| && a[k] == y;
          assert Less(a[0], y);
          LessIrreflexive(y);
          assert y in a;
          assert y in b;
          var m :| 0 <= m < |b| && b[m] == y;
          assert m != 0;
          assert b[1..][m - 1] == y;
        }
        if y in b[1..] {
          var k :| 1 <= k < |b| && b[k] == y;
          assert Less(b[0], y);
          LessIrreflexive(y);
          assert y in b;
          assert y in a;
          var m :| 0 <= m < |a| && a[m] == y;
          assert m != 0;
          assert a[1..][m - 1] == y;
        }
      }
      StrictlyIncreasingUnique(a[1..], b[1..]);
      assert a == [a[0]] + a[1..] && b == [b[0]] + b[1..];
    }
  }

  /** Applying `sorted(set(...))` to its own result changes nothing. */
  lemma SortedSetIdempotent(xs: seq<string>)
    ensures SortedSet(SortedSet(xs)) == SortedSet(xs)
  {
    StrictlyIncreasingUnique(SortedSet(SortedSet(xs)), SortedSet(xs));
  }
}
