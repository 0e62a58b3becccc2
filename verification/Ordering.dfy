/** Code-point order on strings, as Python's comparison and `sorted` use it. */
module Ordering {
  predicate AtMost(a: string, b: string) {
    if a == [] then true
    else if b == [] then false
    else if a[0] == b[0] then AtMost(a[1..], b[1..])
    else a[0] < b[0]
  }

  // The strings part at `k`, where the first one has the lower code point.
  predicate PartsAt(a: string, b: string, k: nat) {
    k < |a| && k < |b| && a[..k] == b[..k] && a[k] < b[k]
  }

  /** A string comes no later than another exactly when it is a prefix of it or has the lower code point
      where they first part. */
  lemma {:induction false} AtMostExactly(a: string, b: string)
    ensures AtMost(a, b) <==> a <= b || exists k :: PartsAt(a, b, k)
  {
    if a != [] && b != [] {
      AtMostExactly(a[1..], b[1..]);
      if a[0] == b[0] {
        assert a == [a[0]] + a[1..] && b == [b[0]] + b[1..];
        if k: nat :| PartsAt(a[1..], b[1..], k) {
          assert a[..k + 1] == [a[0]] + a[1..][..k] && b[..k + 1] == [b[0]] + b[1..][..k];
          assert PartsAt(a, b, k + 1);
        }
        if k: nat :| PartsAt(a, b, k) {
          assert a[1..][..k - 1] == a[..k][1..] && b[1..][..k - 1] == b[..k][1..];
          assert PartsAt(a[1..], b[1..], k - 1);
        }
      } else {
        assert PartsAt(a, b, 0) <==> a[0] < b[0];
      }
    }
  }

  lemma {:induction false} AtMostTotal(a: string, b: string)
    ensures AtMost(a, b) || AtMost(b, a)
    ensures AtMost(a, b) && AtMost(b, a) <==> a == b
  {
    if a != [] && b != [] {
      AtMostTotal(a[1..], b[1..]);
      assert a == [a[0]] + a[1..] && b == [b[0]] + b[1..];
    }
  }

  lemma {:induction false} AtMostTransitive(a: string, b: string, c: string)
    requires AtMost(a, b) && AtMost(b, c)
    ensures AtMost(a, c)
  {
    if a != [] && b != [] && c != [] && a[0] == b[0] == c[0] {
      AtMostTransitive(a[1..], b[1..], c[1..]);
    }
  }

  predicate IsLeast(x: string, all: set<string>) {
    x in all && forall y :: y in all ==> AtMost(x, y)
  }

  predicate IsGreatest(x: string, all: set<string>) {
    x in all && forall y :: y in all ==> AtMost(y, x)
  }

  lemma {:induction false} LeastOne(all: set<string>) returns (x: string)
    requires all != {}
    ensures IsLeast(x, all)
    decreases |all|
  {
    var y :| y in all;
    var rest := all - {y};
    assert forall w :: w in all ==> w == y || w in rest;
    AtMostTotal(y, y);
    x := y;
    if rest != {} {
      var z := LeastOne(rest);
      AtMostTotal(y, z);
      x := if AtMost(y, z) then y else z;
      forall w | w in all
        ensures AtMost(x, w)
      {
        if w != y && x == y {
          AtMostTransitive(y, z, w);
        }
      }
    }
  }

  method Greatest(all: set<string>) returns (x: string)
    requires all != {}
    ensures IsGreatest(x, all)
  {
    x :| x in all;
    var rest := all - {x};
    AtMostTotal(x, x);
    while rest != {}
      invariant x in all && rest <= all
      invariant forall y :: y in all - rest ==> AtMost(y, x)
      decreases |rest|
    {
      var z :| z in rest;
      ghost var before := x;
      AtMostTotal(x, z);
      AtMostTotal(z, z);
      x := if AtMost(x, z) then z else x;
      forall y | y in all - (rest - {z})
        ensures AtMost(y, x)
      {
        if y != z {
          if x == z {
            AtMostTransitive(y, before, z);
          }
        }
      }
      rest := rest - {z};
    }
  }

  method Least(all: set<string>) returns (x: string)
    requires all != {}
    ensures IsLeast(x, all)
  {
    x :| x in all;
    var rest := all - {x};
    AtMostTotal(x, x);
    while rest != {}
      invariant x in all && rest <= all
      invariant forall y :: y in all - rest ==> AtMost(x, y)
      decreases |rest|
    {
      var z :| z in rest;
      ghost var before := x;
      AtMostTotal(x, z);
      AtMostTotal(z, z);
      x := if AtMost(x, z) then x else z;
      forall y | y in all - (rest - {z})
        ensures AtMost(x, y)
      {
        if y != z {
          if x == z {
            AtMostTransitive(z, before, y);
          }
        }
      }
      rest := rest - {z};
    }
  }
}
