/** Lexicographic order of names, and sorting by a strict total order. */
module Order {

  predicate LexLess(a: string, b: string) {
    if b == [] then false
    else if a == [] then true
    else a[0] < b[0] || (a[0] == b[0] && LexLess(a[1..], b[1..]))
  }

  lemma {:induction false} LexTrichotomy(a: string, b: string)
    ensures a == b || LexLess(a, b) || LexLess(b, a)
  {
    if a != [] && b != [] {
      LexTrichotomy(a[1..], b[1..]);
      assert a == [a[0]] + a[1..] && b == [b[0]] + b[1..];
    }
  }

  lemma {:induction false} LexIrreflexive(a: string)
    ensures !LexLess(a, a)
  {
    if a != [] {
      LexIrreflexive(a[1..]);
    }
  }

  lemma {:induction false} LexTransitive(a: string, b: string, c: string)
    requires LexLess(a, b) && LexLess(b, c)
    ensures LexLess(a, c)
  {
    if a != [] && a[0] == b[0] && b[0] == c[0] {
      LexTransitive(a[1..], b[1..], c[1..]);
    }
  }

  /** `less` is a strict total order on the members of `s`. */
  ghost predicate StrictTotal<T>(less: (T, T) -> bool, s: set<T>) {
    && (forall a | a in s :: !less(a, a))
    && (forall a, b | a in s && b in s :: a == b || less(a, b) || less(b, a))
    && (forall a, b, c | a in s && b in s && c in s && less(a, b) && less(b, c) :: less(a, c))
  }

  ghost predicate Sorted<T>(less: (T, T) -> bool, q: seq<T>) {
    forall i, j | 0 <= i < j < |q| :: less(q[i], q[j])
  }

  ghost function Elements<T>(q: seq<T>): set<T> { set x | x in q }

  function Insert<T>(less: (T, T) -> bool, x: T, q: seq<T>): seq<T> {
    if q == [] then [x]
    else if less(x, q[0]) then [x] + q
    else [q[0]] + Insert(less, x, q[1..])
  }

  lemma {:induction false} InsertMembers<T>(less: (T, T) -> bool, x: T, q: seq<T>, y: T)
    ensures |Insert(less, x, q)| == |q| + 1
    ensures y in Insert(less, x, q) <==> y == x || y in q
  {
    if q != [] && !less(x, q[0]) {
      InsertMembers(less, x, q[1..], y);
      assert q == [q[0]] + q[1..];
    }
  }

  lemma InsertElements<T>(less: (T, T) -> bool, x: T, q: seq<T>)
    ensures |Insert(less, x, q)| == |q| + 1
    ensures Elements(Insert(less, x, q)) == Elements(q) + {x}
  {
    InsertMembers(less, x, q, x);
    var s, t := Elements(Insert(less, x, q)), Elements(q) + {x};
    forall y ensures y in s <==> y in t {
      InsertMembers(less, x, q, y);
      assert y in s <==> y in Insert(less, x, q);
    }
    assert s == t;
  }

  lemma ConsSorted<T>(less: (T, T) -> bool, x: T, q: seq<T>)
    requires Sorted(less, q) && forall y | y in q :: less(x, y)
    ensures Sorted(less, [x] + q)
  {
    var r := [x] + q;
    forall i, j | 0 <= i < j < |r| ensures less(r[i], r[j]) {
      assert r[j] == q[j - 1] && q[j - 1] in q;
      assert i > 0 ==> r[i] == q[i - 1];
    }
  }

  /** The head of a sorted sequence is less than every later element. */
  lemma HeadLeast<T>(less: (T, T) -> bool, q: seq<T>, y: T)
    requires q != [] && Sorted(less, q) && y in q[1..]
    ensures less(q[0], y) && q[0] in Elements(q) && y in Elements(q)
  {
    var k :| 0 <= k < |q[1..]| && q[1..][k] == y;
    assert q[k + 1] == y;
  }

  lemma {:induction false} InsertSorted<T>(less: (T, T) -> bool, x: T, q: seq<T>)
    requires Sorted(less, q) && x !in q && StrictTotal(less, Elements(q) + {x})
    ensures Sorted(less, Insert(less, x, q))
  {
    if q == [] {
    } else if less(x, q[0]) {
      forall y | y in q ensures less(x, y) {
        if y != q[0] {
          assert q == [q[0]] + q[1..];
          HeadLeast(less, q, y);
        }
      }
      ConsSorted(less, x, q);
    } else {
      var tail := q[1..];
      assert q == [q[0]] + tail;
      SubsetTotal(less, Elements(q) + {x}, Elements(tail) + {x});
      InsertSorted(less, x, tail);
      forall y | y in Insert(less, x, tail) ensures less(q[0], y) {
        InsertMembers(less, x, tail, y);
        if y == x {
          assert q[0] in Elements(q) + {x} && x in Elements(q) + {x};
        } else {
          HeadLeast(less, q, y);
        }
      }
      ConsSorted(less, q[0], Insert(less, x, tail));
    }
  }

  lemma SubsetTotal<T>(less: (T, T) -> bool, s: set<T>, t: set<T>)
    requires StrictTotal(less, s) && t <= s
    ensures StrictTotal(less, t)
  {
  }

  method SortBy<T(==)>(less: (T, T) -> bool, s: set<T>) returns (q: seq<T>)
    requires StrictTotal(less, s)
    ensures Sorted(less, q) && Elements(q) == s && |q| == |s|
  {
    q := [];
    var rest := s;
    while rest != {}
      invariant rest <= s && Elements(q) == s - rest && Sorted(less, q) && |q| == |s| - |rest|
    {
      var x :| x in rest;
      assert x !in q by { assert x !in Elements(q); }
      SubsetTotal(less, s, Elements(q) + {x});
      InsertSorted(less, x, q);
      InsertElements(less, x, q);
      q := Insert(less, x, q);
      rest := rest - {x};
    }
  }

  lemma SameHead<T>(less: (T, T) -> bool, p: seq<T>, q: seq<T>)
    requires p != [] && Sorted(less, p) && Sorted(less, q) && Elements(p) == Elements(q) && StrictTotal(less, Elements(p))
    ensures q != [] && p[0] == q[0]
  {
    assert p[0] in Elements(p) && p[0] in q;
    assert q[0] in Elements(q) && q[0] in p;
    var i :| 0 <= i < |q| && q[i] == p[0];
    var j :| 0 <= j < |p| && p[j] == q[0];
    var x, y := p[0], q[0];
    assert i == 0 || less(y, x);
    assert j == 0 || less(x, y);
  }

  /** A set has only one sorted listing. */
  lemma {:induction false} SortedUnique<T>(less: (T, T) -> bool, p: seq<T>, q: seq<T>)
    requires Sorted(less, p) && Sorted(less, q) && Elements(p) == Elements(q) && StrictTotal(less, Elements(p))
    ensures p == q
  {
    if p == [] {
      assert forall i | 0 <= i < |q| :: q[i] in Elements(q);
    } else {
      SameHead(less, p, q);
      TailElements(less, p);
      TailElements(less, q);
      SortedUnique(less, p[1..], q[1..]);
      assert p == [p[0]] + p[1..] && q == [q[0]] + q[1..];
    }
  }

  lemma TailElements<T>(less: (T, T) -> bool, p: seq<T>)
    requires p != [] && Sorted(less, p) && StrictTotal(less, Elements(p))
    ensures Elements(p[1..]) == Elements(p) - {p[0]}
  {
    assert p == [p[0]] + p[1..];
    assert forall k | 0 < k < |p| :: p[k] in Elements(p) && less(p[0], p[k]);
    forall x | x in p[1..] ensures x != p[0] {
      var k :| 0 <= k < |p[1..]| && p[1..][k] == x;
      assert p[k + 1] == x;
    }
  }
}
