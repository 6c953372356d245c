/** Sequence vocabulary shared by the components: an optional value, the
    first index of an element, duplicate-free sequences, counting, and the
    de-duplication that `Array.from(new Set(xs))` performs. */
module Collections {

  /** A value that may be absent (`null` / `undefined` in the dashboard). */
  datatype Option<+T> = None | Some(value: T)

  /** No element occurs twice. */
  predicate NoDuplicates<T(==)>(xs: seq<T>)
  {
    forall i, j :: 0 <= i < j < |xs| ==> xs[i] != xs[j]
  }

  /** The position of the first occurrence of `x` in `xs`. */
  function IndexOf<T(==)>(xs: seq<T>, x: T): (k: nat)
    requires x in xs
    ensures k < |xs| && xs[k] == x
    ensures forall j :: 0 <= j < k ==> xs[j] != x
  {
    if xs[0] == x then 0 else 1 + IndexOf(xs[1..], x)
  }

  /** The first position holding `x` is its index. */
  lemma IndexOfAt<T>(xs: seq<T>, x: T, k: nat)
    requires k < |xs| && xs[k] == x
    requires forall j :: 0 <= j < k ==> xs[j] != x
    ensures IndexOf(xs, x) == k
  {
  }

  /** Appending an element does not move the first occurrence of anything
      already present, and a new element's first occurrence is the end. */
  lemma IndexOfSnoc<T>(p: seq<T>, x: T, y: T)
    requires y in p + [x]
    ensures y in p ==> IndexOf(p + [x], y) == IndexOf(p, y)
    ensures y !in p ==> IndexOf(p + [x], y) == |p|
  {
    if y in p {
      var m := IndexOf(p, y);
      assert (p + [x])[m] == y;
    }
  }

  /** If `a + b` has no duplicates, neither has `b`, and no element of `a`
      occurs in `b`. */
  lemma NoDuplicatesAppend<T>(a: seq<T>, b: seq<T>)
    requires NoDuplicates(a + b)
    ensures NoDuplicates(b)
    ensures forall x <- a :: x !in b
  {
    forall i, j | 0 <= i < j < |b| ensures b[i] != b[j] {
      assert (a + b)[|a| + i] == b[i] && (a + b)[|a| + j] == b[j];
    }
    forall i, j | 0 <= i < |a| && 0 <= j < |b| ensures a[i] != b[j] {
      assert (a + b)[i] == a[i] && (a + b)[|a| + j] == b[j];
    }
  }

  /** How many times `x` occurs in `xs`. */
  function Count<T(==)>(xs: seq<T>, x: T): (n: nat)
    ensures n <= |xs|
    ensures n == 0 <==> x !in xs
  {
    if xs == [] then 0
    else (if xs[0] == x then 1 else 0) + Count(xs[1..], x)
  }

  /** In a duplicate-free sequence every element occurs exactly once and
      everything else not at all. */
  lemma {:induction false} CountWithoutDuplicates<T>(xs: seq<T>, x: T)
    requires NoDuplicates(xs)
    ensures Count(xs, x) == if x in xs then 1 else 0
  {
    if xs != [] {
      assert NoDuplicates(xs[1..]) by {
        forall i, j | 0 <= i < j < |xs[1..]| ensures xs[1..][i] != xs[1..][j] {
          assert xs[1..][i] == xs[i + 1] && xs[1..][j] == xs[j + 1];
        }
      }
      CountWithoutDuplicates(xs[1..], x);
      if xs[0] == x {
        assert x !in xs[1..] by {
          forall j | 0 <= j < |xs[1..]| ensures xs[1..][j] != x {
            assert xs[1..][j] == xs[j + 1];
          }
        }
      } else {
        assert x in xs ==> x in xs[1..];
      }
    }
  }

  /** The elements of `xs` without repetition, each at the place of its
      first occurrence: what iterating a JavaScript `Set` built from `xs`
      yields, since a `Set` iterates in insertion order and inserting an
      element that is already present leaves it where it was. */
  function Distinct<T(==)>(xs: seq<T>): (r: seq<T>)
    ensures NoDuplicates(r)
    ensures forall x <- r :: x in xs
    ensures forall x <- xs :: x in r
  {
    if xs == [] then []
    else
      var d := Distinct(xs[..|xs| - 1]);
      var x := xs[|xs| - 1];
      assert xs == xs[..|xs| - 1] + [x];
      if x in d then d else d + [x]
  }

  /** `Distinct` lists the elements in the order of their first occurrence. */
  lemma {:induction false} DistinctFirstOccurrenceOrder<T>(xs: seq<T>)
    ensures InFirstOccurrenceOrder(xs, Distinct(xs))
  {
    if xs != [] {
      var p, x := xs[..|xs| - 1], xs[|xs| - 1];
      assert xs == p + [x];
      DistinctFirstOccurrenceOrder(p);
      var d, r := Distinct(p), Distinct(xs);
      forall i, j | 0 <= i < j < |r| ensures IndexOf(xs, r[i]) < IndexOf(xs, r[j]) {
        IndexOfSnoc(p, x, r[i]);
        IndexOfSnoc(p, x, r[j]);
        if j < |d| {
          assert r[i] == d[i] && r[j] == d[j];
        } else {
          assert r[j] == x && x !in p;
          assert r[i] == d[i] && r[i] in p;
        }
      }
    }
  }

  /** `r` lists elements of `xs` ordered by where they first occur in `xs`. */
  predicate InFirstOccurrenceOrder<T(==)>(xs: seq<T>, r: seq<T>)
  {
    && (forall y <- r :: y in xs)
    && forall i, j :: 0 <= i < j < |r| ==> IndexOf(xs, r[i]) < IndexOf(xs, r[j])
  }

  /** A non-empty sequence has a member. */
  lemma HeadIsMember<T>(r: seq<T>)
    ensures r != [] ==> r[0] in r
  {
  }

  /** The head of a sequence in first-occurrence order occurs first. */
  lemma HeadOccursFirst<T>(xs: seq<T>, r: seq<T>, y: T)
    requires InFirstOccurrenceOrder(xs, r)
    requires y in r
    ensures IndexOf(xs, r[0]) <= IndexOf(xs, y)
  {
  }

  /** Dropping the head of a duplicate-free sequence in first-occurrence
      order leaves one of the same kind, holding every element but the head. */
  lemma TailInOrder<T>(xs: seq<T>, r: seq<T>)
    requires r != []
    requires NoDuplicates(r) && InFirstOccurrenceOrder(xs, r)
    ensures NoDuplicates(r[1..]) && InFirstOccurrenceOrder(xs, r[1..])
    ensures forall y :: y in r[1..] <==> y in r && y != r[0]
  {
    var t := r[1..];
    forall i, j | 0 <= i < j < |t| ensures t[i] != t[j] && IndexOf(xs, t[i]) < IndexOf(xs, t[j]) {
      assert t[i] == r[i + 1] && t[j] == r[j + 1];
    }
    forall y ensures y in t <==> y in r && y != r[0] {
      if y in t {
        var k :| 0 <= k < |t| && t[k] == y;
        assert r[k + 1] == y;
      }
      if y in r && y != r[0] {
        var k :| 0 <= k < |r| && r[k] == y;
        assert t[k - 1] == y;
      }
    }
  }

  /** Two duplicate-free sequences with the same elements, both in
      first-occurrence order, are equal. */
  lemma {:induction false} FirstOccurrenceOrderUnique<T>(xs: seq<T>, r1: seq<T>, r2: seq<T>)
    requires NoDuplicates(r1) && NoDuplicates(r2)
    requires forall y :: y in r1 <==> y in r2
    requires InFirstOccurrenceOrder(xs, r1) && InFirstOccurrenceOrder(xs, r2)
    ensures r1 == r2
    decreases |r1|
  {
    if r1 != [] {
      assert r1[0] in r2;
      HeadOccursFirst(xs, r1, r2[0]);
      HeadOccursFirst(xs, r2, r1[0]);
      assert xs[IndexOf(xs, r1[0])] == r1[0] && xs[IndexOf(xs, r2[0])] == r2[0];
      TailInOrder(xs, r1);
      TailInOrder(xs, r2);
      FirstOccurrenceOrderUnique(xs, r1[1..], r2[1..]);
      assert r1 == [r1[0]] + r1[1..] && r2 == [r2[0]] + r2[1..];
    } else {
      HeadIsMember(r2);
    }
  }

  /** `Distinct(xs)` is the only duplicate-free sequence with the elements of
      `xs` in first-occurrence order. */
  lemma DistinctCharacterized<T>(xs: seq<T>, r: seq<T>)
    requires NoDuplicates(r)
    requires forall y <- r :: y in xs
    requires forall y <- xs :: y in r
    requires forall i, j :: 0 <= i < j < |r| ==> IndexOf(xs, r[i]) < IndexOf(xs, r[j])
    ensures r == Distinct(xs)
  {
    DistinctFirstOccurrenceOrder(xs);
    FirstOccurrenceOrderUnique(xs, r, Distinct(xs));
  }
}
