/** Keys in ascending order: the order in which an ordered map is walked. */
module Order {
  import opened Basics
  import opened Codec

  // ---- Strict total orders ----

  ghost predicate StrictTotal<T(!new)>(less: (T, T) -> bool) {
    && (forall a :: !less(a, a))
    && (forall a, b, c :: less(a, b) && less(b, c) ==> less(a, c))
    && (forall a, b :: a == b || less(a, b) || less(b, a))
  }

  predicate Ascending<T>(s: seq<T>, less: (T, T) -> bool) {
    forall i, j :: 0 <= i < j < |s| ==> less(s[i], s[j])
  }

  predicate NumberLess(a: u64, b: u64) { a < b }

  /** Lexicographic order of byte strings. */
  predicate TextLess(a: Text, b: Text)
    decreases |b|
  {
    b != [] && (a == [] || a[0] < b[0] || (a[0] == b[0] && TextLess(a[1..], b[1..])))
  }

  lemma NumberOrder()
    ensures StrictTotal(NumberLess)
  {
  }

  lemma {:induction false} TextLessTransitive(a: Text, b: Text, c: Text)
    requires TextLess(a, b) && TextLess(b, c)
    ensures TextLess(a, c)
    decreases |a|
  {
    if a != [] && a[0] == b[0] && b[0] == c[0] {
      TextLessTransitive(a[1..], b[1..], c[1..]);
    }
  }

  lemma {:induction false} TextLessTotal(a: Text, b: Text)
    ensures a == b || TextLess(a, b) || TextLess(b, a)
    decreases |a|
  {
    if a != [] && b != [] && a[0] == b[0] {
      TextLessTotal(a[1..], b[1..]);
      if a[1..] == b[1..] {
        assert a == [a[0]] + a[1..] && b == [b[0]] + b[1..];
      }
    }
  }

  lemma {:induction false} TextLessIrreflexive(a: Text)
    ensures !TextLess(a, a)
    decreases |a|
  {
    if a != [] {
      TextLessIrreflexive(a[1..]);
    }
  }

  lemma TextOrder()
    ensures StrictTotal(TextLess)
  {
    forall a ensures !TextLess(a, a) {
      TextLessIrreflexive(a);
    }
    forall a, b, c | TextLess(a, b) && TextLess(b, c) ensures TextLess(a, c) {
      TextLessTransitive(a, b, c);
    }
    forall a, b ensures a == b || TextLess(a, b) || TextLess(b, a) {
      TextLessTotal(a, b);
    }
  }

  lemma ClipStep(a: Text, max: u32)
    requires a != [] && max > 0
    ensures Clip(a, max) == [a[0]] + Clip(a[1..], max - 1)
  {
  }

  lemma FirstThenRest(x: u8, a: Text, y: u8, b: Text)
    ensures TextLess([x] + a, [y] + b) <==> x < y || (x == y && TextLess(a, b))
  {
    assert ([x] + a)[1..] == a && ([y] + b)[1..] == b;
  }

  lemma EmptyFirst(b: Text)
    ensures TextLess([], b) <==> b != []
    ensures !TextLess(b, [])
  {
  }

  lemma ClipShort(b: Text, max: u32)
    ensures max == 0 || b == [] ==> Clip(b, max) == []
  {
  }

  /** Clipping keeps key order: clipped keys are in the same order, or have become equal. */
  lemma {:induction false} ClipKeepsOrder(a: Text, b: Text, max: u32)
    requires TextLess(a, b)
    ensures Clip(a, max) == Clip(b, max) || TextLess(Clip(a, max), Clip(b, max))
    decreases |a|
  {
    hide TextLess, Clip;
    EmptyFirst(a);
    ClipShort(a, max);
    ClipShort(b, max);
    EmptyFirst(Clip(b, max));
    if max > 0 && a != [] {
      var c, d := a[1..], b[1..];
      assert a == [a[0]] + c && b == [b[0]] + d;
      FirstThenRest(a[0], c, b[0], d);
      ClipStep(a, max);
      ClipStep(b, max);
      FirstThenRest(a[0], Clip(c, max - 1), b[0], Clip(d, max - 1));
      if a[0] == b[0] {
        ClipKeepsOrder(c, d, max - 1);
      }
    }
  }

  // ---- Walking a set in order ----

  lemma Transitive<T(!new)>(less: (T, T) -> bool, a: T, b: T, c: T)
    requires StrictTotal(less) && less(a, b) && less(b, c)
    ensures less(a, c)
  {
  }

  lemma Total<T(!new)>(less: (T, T) -> bool, a: T, b: T)
    requires StrictTotal(less)
    ensures a == b || less(a, b) || less(b, a)
    ensures !(less(a, b) && less(b, a))
  {
    assert less(a, b) && less(b, a) ==> less(a, a);
  }

  predicate IsLeast<T(==, !new)>(s: set<T>, less: (T, T) -> bool, m: T) {
    m in s && forall x :: x in s && x != m ==> less(m, x)
  }

  lemma {:induction false} LeastExists<T(!new)>(s: set<T>, less: (T, T) -> bool)
    requires StrictTotal(less) && s != {}
    ensures exists m :: IsLeast(s, less, m)
    decreases |s|
  {
    hide StrictTotal;
    var a :| a in s;
    if s == {a} {
      assert IsLeast(s, less, a);
    } else {
      LeastExists(s - {a}, less);
      var m :| IsLeast(s - {a}, less, m);
      if less(a, m) {
        forall x | x in s && x != a ensures less(a, x) {
          if x != m {
            Transitive(less, a, m, x);
          }
        }
        assert IsLeast(s, less, a);
      } else {
        Total(less, a, m);
        assert IsLeast(s, less, m);
      }
    }
  }

  lemma LeastUnique<T(!new)>(s: set<T>, less: (T, T) -> bool)
    requires StrictTotal(less)
    ensures forall m, n :: IsLeast(s, less, m) && IsLeast(s, less, n) ==> m == n
  {
    forall m, n | IsLeast(s, less, m) && IsLeast(s, less, n) ensures m == n {
      Total(less, m, n);
    }
  }

  function Least<T(==, !new)>(s: set<T>, less: (T, T) -> bool): (m: T)
    requires StrictTotal(less) && s != {}
    ensures IsLeast(s, less, m)
  {
    LeastExists(s, less);
    LeastUnique(s, less);
    var m :| m in s && IsLeast(s, less, m);
    m
  }

  /** The elements of s, ascending. */
  function Sorted<T(==, !new)>(s: set<T>, less: (T, T) -> bool): (r: seq<T>)
    requires StrictTotal(less)
    ensures Ascending(r, less) && |r| == |s|
    ensures forall x :: x in r <==> x in s
    decreases |s|
  {
    if s == {} then [] else
      var m := Least(s, less);
      [m] + Sorted(s - {m}, less)
  }

  lemma {:induction false} AscendingUnique<T(!new)>(a: seq<T>, b: seq<T>, less: (T, T) -> bool)
    requires StrictTotal(less) && Ascending(a, less) && Ascending(b, less)
    requires forall x :: x in a <==> x in b
    ensures a == b
  {
    assert a != [] ==> a[0] in a;
    assert b != [] ==> b[0] in b;
    if a != [] {
      assert a[0] == b[0];
      forall x ensures x in a[1..] <==> x in b[1..] {
        TailMembers(a, x, less);
        TailMembers(b, x, less);
      }
      AscendingUnique(a[1..], b[1..], less);
      assert a == [a[0]] + a[1..] && b == [b[0]] + b[1..];
    }
  }

  lemma TailMembers<T(!new)>(a: seq<T>, x: T, less: (T, T) -> bool)
    requires StrictTotal(less) && Ascending(a, less) && a != []
    ensures x in a[1..] <==> x in a && x != a[0]
  {
    if x in a[1..] {
      var i :| 0 <= i < |a[1..]| && a[1..][i] == x;
      assert less(a[0], a[i + 1]);
    }
    if x in a && x != a[0] {
      var i :| 0 <= i < |a| && a[i] == x;
      assert a[1..][i - 1] == x;
    }
  }

  /** There is one ascending walk of a set. */
  lemma SortedUnique<T(!new)>(s: set<T>, r: seq<T>, less: (T, T) -> bool)
    requires StrictTotal(less) && Ascending(r, less) && forall x :: x in r <==> x in s
    ensures r == Sorted(s, less)
  {
    AscendingUnique(r, Sorted(s, less), less);
  }
}
