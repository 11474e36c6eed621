/** Sums of a weight over the rows of a table: the SQL aggregates and all
    accounting statements of this project are instances of one function. */
module Sums {

  function Sum<T>(s: seq<T>, weight: T -> int): int {
    if |s| == 0 then 0 else Sum(s[..|s| - 1], weight) + weight(s[|s| - 1])
  }

  lemma SumAppend<T>(s: seq<T>, x: T, weight: T -> int)
    ensures Sum(s + [x], weight) == Sum(s, weight) + weight(x)
  {
    assert (s + [x])[..|s|] == s;
  }

  lemma {:induction false} SumUpdate<T>(s: seq<T>, i: nat, x: T, weight: T -> int)
    requires i < |s|
    ensures Sum(s[i := x], weight) == Sum(s, weight) - weight(s[i]) + weight(x)
  {
    var n := |s| - 1;
    if i == n {
      assert s[i := x][..n] == s[..n];
    } else {
      SumUpdate(s[..n], i, x, weight);
      assert s[i := x][..n] == s[..n][i := x];
    }
  }

  lemma {:induction false} SumConcat<T>(a: seq<T>, b: seq<T>, weight: T -> int)
    ensures Sum(a + b, weight) == Sum(a, weight) + Sum(b, weight)
  {
    if |b| == 0 {
      assert a + b == a;
    } else {
      SumConcat(a, b[..|b| - 1], weight);
      assert (a + b)[..|a + b| - 1] == a + b[..|b| - 1];
    }
  }

  lemma {:induction false} SumZero<T>(s: seq<T>, weight: T -> int)
    requires forall i | 0 <= i < |s| :: weight(s[i]) == 0
    ensures Sum(s, weight) == 0
  {
    if |s| > 0 {
      SumZero(s[..|s| - 1], weight);
    }
  }

  lemma {:induction false} SumAtLeast<T>(s: seq<T>, weight: T -> int)
    requires forall i | 0 <= i < |s| :: weight(s[i]) >= 0
    ensures Sum(s, weight) >= 0
    ensures forall i | 0 <= i < |s| :: Sum(s, weight) >= weight(s[i])
  {
    if |s| > 0 {
      SumAtLeast(s[..|s| - 1], weight);
      forall i | 0 <= i < |s| ensures Sum(s, weight) >= weight(s[i]) {
        if i < |s| - 1 {
          assert s[i] == s[..|s| - 1][i];
        }
      }
    }
  }

  lemma {:induction false} SumAtMost<T>(s: seq<T>, f: T -> int, g: T -> int)
    requires forall i | 0 <= i < |s| :: f(s[i]) <= g(s[i])
    ensures Sum(s, f) <= Sum(s, g)
  {
    if |s| > 0 {
      SumAtMost(s[..|s| - 1], f, g);
    }
  }

  /** How many rows have a property. */
  function Count<T>(s: seq<T>, has: T -> bool): nat { |set i | 0 <= i < |s| && has(s[i])| }

  /** The sum of a weight that is one for the rows with the property, and else zero, counts them. */
  lemma {:induction false} SumIsCount<T>(s: seq<T>, weight: T -> int, has: T -> bool)
    requires forall x | x in s :: weight(x) == if has(x) then 1 else 0
    ensures Sum(s, weight) == Count(s, has)
  {
    if |s| > 0 {
      SumIsCount(s[..|s| - 1], weight, has);
      CountLast(s, has);
    }
  }

  lemma CountLast<T>(s: seq<T>, has: T -> bool)
    requires |s| > 0
    ensures Count(s, has) == Count(s[..|s| - 1], has) + if has(s[|s| - 1]) then 1 else 0
  {
    var n := |s| - 1;
    var before := set i | 0 <= i < n && has(s[i]);
    assert before == set i | 0 <= i < n && has(s[..n][i]);
    var all := set i | 0 <= i < |s| && has(s[i]);
    if has(s[n]) {
      assert all == before + {n};
    } else {
      assert all == before;
    }
  }
}
