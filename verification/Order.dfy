// Sequences in the order of a strict total order: such a sequence is determined by its elements,
// which is why neither map iteration order nor the sorting algorithm can be observed.

module Order {

  ghost predicate StrictTotal<T(!new)>(less: (T, T) -> bool) {
    && (forall a :: !less(a, a))
    && (forall a, b :: a != b ==> less(a, b) || less(b, a))
    && (forall a, b, c :: less(a, b) && less(b, c) ==> less(a, c))
  }

  lemma {:induction false} SubsetIsSmaller<T>(a: set<T>, b: set<T>)
    requires a <= b
    ensures |a| <= |b|
  {
    if a != {} {
      var x :| x in a;
      SubsetIsSmaller(a - {x}, b - {x});
    }
  }

  ghost predicate Ordered<T(!new)>(less: (T, T) -> bool, s: seq<T>) {
    forall i, j :: 0 <= i < j < |s| ==> less(s[i], s[j])
  }

  lemma {:induction false} SamePosition<T(!new)>(less: (T, T) -> bool, s: seq<T>, t: seq<T>, k: nat)
    requires StrictTotal(less) && Ordered(less, s) && Ordered(less, t)
    requires forall x :: x in s <==> x in t
    requires k < |t|
    ensures k < |s| && s[k] == t[k]
  {
    assert t[k] in s;
    var j :| 0 <= j < |s| && s[j] == t[k];
    forall i | 0 <= i < k ensures i < |s| && s[i] == t[i] {
      SamePosition(less, s, t, i);
    }
    assert s[k] in t;
    var i :| 0 <= i < |t| && t[i] == s[k];
  }

  lemma OrderIsUnique<T(!new)>(less: (T, T) -> bool, s: seq<T>, t: seq<T>)
    requires StrictTotal(less) && Ordered(less, s) && Ordered(less, t)
    requires forall x :: x in s <==> x in t
    ensures s == t
  {
    forall k | 0 <= k < |t| ensures k < |s| && s[k] == t[k] {
      SamePosition(less, s, t, k);
    }
    if |s| > 0 {
      SamePosition(less, t, s, |s| - 1);
    }
    if |t| > 0 {
      SamePosition(less, s, t, |t| - 1);
    }
  }

  method InsertInOrder<T(!new, ==)>(less: (T, T) -> bool, s: seq<T>, x: T) returns (r: seq<T>)
    requires StrictTotal(less) && Ordered(less, s) && x !in s
    ensures Ordered(less, r)
    ensures forall y :: y in r <==> y == x || y in s
  {
    var at := 0;
    while at < |s| && less(s[at], x)
      invariant at <= |s|
      invariant forall i :: 0 <= i < at ==> less(s[i], x)
    {
      at := at + 1;
    }
    r := s[..at] + [x] + s[at..];
    forall i | at <= i < |s| ensures less(x, s[i]) {
      assert less(x, s[at]);
      assert at < i ==> less(s[at], s[i]);
    }
    assert s == s[..at] + s[at..];
    assert forall y :: y in r <==> y in s[..at] || y == x || y in s[at..];
    assert forall y :: y in s <==> y in s[..at] || y in s[at..];
  }
}
