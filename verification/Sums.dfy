/** Finite sums of natural weights, and the sorted list of a finite set of names. */
module Sums {
  import opened FailureDomains

  function At(w: map<string, nat>, n: string): nat {
    if n in w then w[n] else 0
  }

  ghost function Sum(w: map<string, nat>, s: set<string>): nat
    decreases |s|
  {
    if s == {} then 0 else var x :| x in s; At(w, x) + Sum(w, s - {x})
  }

  lemma {:induction false} SumRemove(w: map<string, nat>, s: set<string>, x: string)
    requires x in s
    ensures Sum(w, s) == At(w, x) + Sum(w, s - {x})
    decreases |s|
  {
    var y :| y in s && Sum(w, s) == At(w, y) + Sum(w, s - {y});
    if y != x {
      SumRemove(w, s - {y}, x);
      SumRemove(w, s - {x}, y);
      assert s - {y} - {x} == s - {x} - {y};
    }
  }

  lemma SumAdd(w: map<string, nat>, s: set<string>, x: string)
    requires x !in s
    ensures Sum(w, s + {x}) == At(w, x) + Sum(w, s)
  {
    SumRemove(w, s + {x}, x);
    assert s + {x} - {x} == s;
  }

  lemma {:induction false} SumUnion(w: map<string, nat>, a: set<string>, b: set<string>)
    requires a !! b
    ensures Sum(w, a + b) == Sum(w, a) + Sum(w, b)
    decreases |b|
  {
    if b == {} {
      assert a + b == a;
    } else {
      var x :| x in b;
      SumUnion(w, a, b - {x});
      SumRemove(w, b, x);
      SumRemove(w, a + b, x);
      assert a + b - {x} == a + (b - {x});
    }
  }

  lemma SumSubset(w: map<string, nat>, a: set<string>, b: set<string>)
    requires a <= b
    ensures Sum(w, a) <= Sum(w, b)
  {
    SumUnion(w, a, b - a);
    assert a + (b - a) == b;
  }

  /** Weights that do not decrease on a set do not decrease its sum. */
  lemma {:induction false} SumMonotone(v: map<string, nat>, w: map<string, nat>, s: set<string>)
    requires forall n | n in s :: At(v, n) <= At(w, n)
    ensures Sum(v, s) <= Sum(w, s)
    decreases |s|
  {
    if s != {} {
      var x :| x in s;
      SumRemove(v, s, x);
      SumRemove(w, s, x);
      SumMonotone(v, w, s - {x});
    }
  }

  lemma SumSame(v: map<string, nat>, w: map<string, nat>, s: set<string>)
    requires forall n | n in s :: At(v, n) == At(w, n)
    ensures Sum(v, s) == Sum(w, s)
  {
    SumMonotone(v, w, s);
    SumMonotone(w, v, s);
  }

  /** A sum over a union is at most the sum of the sums. */
  lemma SumUnionBound(w: map<string, nat>, a: set<string>, b: set<string>)
    ensures Sum(w, a + b) <= Sum(w, a) + Sum(w, b)
  {
    SumUnion(w, a, b - a);
    assert a + (b - a) == a + b;
    SumSubset(w, b - a, b);
  }

  // ----- Lists -----

  function ListSum(w: map<string, nat>, s: seq<string>): nat {
    if s == [] then 0 else ListSum(w, s[..|s| - 1]) + At(w, s[|s| - 1])
  }

  lemma {:induction false} ListSumIsSum(w: map<string, nat>, s: seq<string>)
    requires Distinct(s)
    ensures ListSum(w, s) == Sum(w, Elements(s))
    decreases |s|
  {
    if s != [] {
      var front, last := s[..|s| - 1], s[|s| - 1];
      assert s == front + [last];
      ListSumIsSum(w, front);
      assert last !in front;
      assert Elements(s) == Elements(front) + {last};
      SumAdd(w, Elements(front), last);
    }
  }

  lemma {:induction false} ListSumSame(v: map<string, nat>, w: map<string, nat>, s: seq<string>)
    requires forall n | n in s :: At(v, n) <= At(w, n)
    ensures ListSum(v, s) <= ListSum(w, s)
    decreases |s|
  {
    if s != [] {
      ListSumSame(v, w, s[..|s| - 1]);
    }
  }

  lemma {:induction false} ListSumZero(w: map<string, nat>, s: seq<string>)
    requires forall n | n in s :: At(w, n) == 0
    ensures ListSum(w, s) == 0
    decreases |s|
  {
    if s != [] {
      ListSumZero(w, s[..|s| - 1]);
    }
  }

  // ----- Sorted name lists -----

  predicate NameLeq(a: string, b: string) {
    a == [] || (b != [] && (a[0] < b[0] || (a[0] == b[0] && NameLeq(a[1..], b[1..]))))
  }

  lemma {:induction false} NameLeqTotal(a: string, b: string)
    ensures NameLeq(a, b) || NameLeq(b, a)
    ensures NameLeq(a, b) && NameLeq(b, a) ==> a == b
    decreases |a|
  {
    if a != [] && b != [] {
      NameLeqTotal(a[1..], b[1..]);
      assert a == [a[0]] + a[1..] && b == [b[0]] + b[1..];
    }
  }

  lemma {:induction false} NameLeqTransitive(a: string, b: string, c: string)
    requires NameLeq(a, b) && NameLeq(b, c)
    ensures NameLeq(a, c)
    decreases |a|
  {
    if a != [] && a[0] == b[0] == c[0] {
      NameLeqTransitive(a[1..], b[1..], c[1..]);
    }
  }

  /** Byte order: a prefix comes first, otherwise the first difference decides. */
  lemma {:induction false} NameLeqIsByteOrder(a: string, b: string)
    ensures NameLeq(a, b) <==> a <= b || exists k :: 0 <= k < |a| && k < |b| && a[..k] == b[..k] && a[k] < b[k]
    decreases |a|
  {
    if a != [] && b != [] && a[0] == b[0] {
      var x, y := a[1..], b[1..];
      NameLeqIsByteOrder(x, y);
      assert a == [a[0]] + x && b == [b[0]] + y;
      if k :| 0 <= k < |x| && k < |y| && x[..k] == y[..k] && x[k] < y[k] {
        assert a[..k + 1] == [a[0]] + x[..k] && b[..k + 1] == [b[0]] + y[..k];
        assert a[k + 1] < b[k + 1];
      }
      if k :| 0 <= k < |a| && k < |b| && a[..k] == b[..k] && a[k] < b[k] {
        assert k > 0 && x[..k - 1] == a[..k][1..] && y[..k - 1] == b[..k][1..];
        assert x[k - 1] < y[k - 1];
      }
    } else if a != [] && b != [] && a[0] < b[0] {
      assert a[..0] == b[..0];
    } else if a != [] && b != [] {
      assert forall k | 0 < k < |a| && k < |b| :: a[..k][0] != b[..k][0];
    }
  }

  predicate IsLeast(n: string, s: set<string>) {
    n in s && forall x | x in s :: NameLeq(n, x)
  }

  lemma LeastUnique(m: string, n: string, s: set<string>)
    requires IsLeast(m, s) && IsLeast(n, s)
    ensures m == n
  {
    NameLeqTotal(m, n);
  }

  lemma {:induction false} LeastExists(s: set<string>)
    requires s != {}
    ensures exists n :: IsLeast(n, s)
    decreases |s|
  {
    var x :| x in s;
    if s == {x} {
      NameLeqTotal(x, x);
      assert IsLeast(x, s);
    } else {
      var rest := s - {x};
      assert rest != {} by { assert s == rest + {x}; }
      LeastExists(rest);
      var m :| IsLeast(m, rest);
      NameLeqTotal(x, m);
      NameLeqTotal(x, x);
      if NameLeq(m, x) {
        assert IsLeast(m, s);
      } else {
        forall y | y in s ensures NameLeq(x, y) {
          if y != x {
            NameLeqTransitive(x, m, y);
          }
        }
        assert IsLeast(x, s);
      }
    }
  }

  /** The names of a set in increasing order: the deterministic order of the generated copy suffixes. */
  ghost function Sorted(s: set<string>): (r: seq<string>)
    ensures Elements(r) == s && |r| == |s| && Distinct(r)
    decreases |s|
  {
    if s == {} then []
    else
      LeastExists(s);
      var m :| IsLeast(m, s);
      ConsElements(m, Sorted(s - {m}));
      [m] + Sorted(s - {m})
  }

  lemma ConsElements(m: string, rest: seq<string>)
    requires m !in Elements(rest) && Distinct(rest)
    ensures Elements([m] + rest) == Elements(rest) + {m} && Distinct([m] + rest)
  {
    ElementsSplit([m] + rest);
    assert ([m] + rest)[1..] == rest;
    assert forall k | 0 <= k < |rest| :: rest[k] in Elements(rest);
  }

  lemma {:induction false} SortedUnfold(s: set<string>, m: string)
    requires IsLeast(m, s)
    ensures Sorted(s) == [m] + Sorted(s - {m})
  {
    var k :| IsLeast(k, s) && Sorted(s) == [k] + Sorted(s - {k});
    LeastUnique(k, m, s);
  }

  /** The sorted list ascends. */
  lemma {:induction false} SortedAscends(s: set<string>, i: nat, j: nat)
    requires i < j < |Sorted(s)|
    ensures NameLeq(Sorted(s)[i], Sorted(s)[j])
    decreases |s|
  {
    hide Sorted, NameLeq;
    LeastExists(s);
    var m :| IsLeast(m, s);
    SortedUnfold(s, m);
    if i == 0 {
      assert Sorted(s)[j] in Elements(Sorted(s)) && Sorted(s)[0] == m;
    } else {
      hide IsLeast;
      SortedAscends(s - {m}, i - 1, j - 1);
    }
  }

  method Least(s: set<string>) returns (m: string)
    requires s != {}
    ensures IsLeast(m, s)
  {
    m :| m in s;
    var todo := s - {m};
    NameLeqTotal(m, m);
    while todo != {}
      invariant m in s && m !in todo && todo <= s
      invariant forall x | x in s - todo :: NameLeq(m, x)
      decreases |todo|
    {
      var x :| x in todo;
      NameLeqTotal(m, x);
      NameLeqTotal(x, x);
      todo := todo - {x};
      if !NameLeq(m, x) {
        forall y | y in s - todo ensures NameLeq(x, y) {
          if y != x {
            NameLeqTransitive(x, m, y);
          }
        }
        m := x;
      }
    }
  }

  method SortNames(s: set<string>) returns (r: seq<string>)
    ensures r == Sorted(s)
  {
    hide Sorted, IsLeast, NameLeq;
    r := [];
    var rest := s;
    while rest != {}
      invariant Sorted(s) == r + Sorted(rest)
      decreases |rest|
    {
      var m := Least(rest);
      SortedUnfold(rest, m);
      assert r + ([m] + Sorted(rest - {m})) == (r + [m]) + Sorted(rest - {m});
      r := r + [m];
      rest := rest - {m};
    }
  }

  // ----- Append-only name lists -----

  /** Appends the names that are not recorded yet, in order. */
  function MergeNames(recorded: seq<string>, names: seq<string>): (r: seq<string>)
    ensures recorded <= r
    ensures Elements(r) == Elements(recorded) + Elements(names)
    ensures Distinct(recorded) ==> Distinct(r)
  {
    if names == [] then recorded
    else
      var front, last := names[..|names| - 1], names[|names| - 1];
      assert names == front + [last];
      var r := MergeNames(recorded, front);
      assert Elements(names) == Elements(front) + {last};
      assert Elements(r + [last]) == Elements(r) + {last};
      if last in r then r else r + [last]
  }
}
