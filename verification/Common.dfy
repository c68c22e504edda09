/** Shared vocabulary: optional values, runs of a transition system, and sums and bags over sequences. */
module Wrappers {
  datatype Option<+T> = None | Some(value: T)
}

/** A transition system is a function `next` that is `None` when an action is not enabled. */
module Runs {
  import opened Wrappers

  /** The state that a finite run reaches from `s`, or `None` when some action of the run is not enabled. */
  function Exec<S, A>(next: (S, A) -> Option<S>, s: S, run: seq<A>): Option<S>
    decreases |run|
  {
    if run == [] then Some(s)
    else match next(s, run[0])
      case None => None
      case Some(s1) => Exec(next, s1, run[1..])
  }

  /** What every enabled action keeps holds at the end of every run. */
  lemma {:induction false} Invariance<S(!new), A(!new)>(next: (S, A) -> Option<S>, inv: S -> bool, s: S, run: seq<A>)
    requires inv(s)
    requires forall s0, a :: inv(s0) && next(s0, a).Some? ==> inv(next(s0, a).value)
    ensures Exec(next, s, run).Some? ==> inv(Exec(next, s, run).value)
    decreases |run|
  {
    if run != [] && next(s, run[0]).Some? {
      Invariance(next, inv, next(s, run[0]).value, run[1..]);
    }
  }

  /** The same for what relates a state to the run that led there. */
  lemma {:induction false} Along<S(!new), A(!new)>(
      next: (S, A) -> Option<S>, inv: (S, seq<A>) -> bool, s: S, done: seq<A>, run: seq<A>)
    requires inv(s, done)
    requires forall s0, r, a :: inv(s0, r) && next(s0, a).Some? ==> inv(next(s0, a).value, r + [a])
    ensures Exec(next, s, run).Some? ==> inv(Exec(next, s, run).value, done + run)
    decreases |run|
  {
    if run == [] {
      assert done + run == done;
    } else if next(s, run[0]).Some? {
      Along(next, inv, next(s, run[0]).value, done + [run[0]], run[1..]);
      assert done + [run[0]] + run[1..] == done + run;
    }
  }

  /** A run written out state by state. */
  ghost predicate Trace<S, A>(next: (S, A) -> Option<S>, states: seq<S>, run: seq<A>) {
    |states| == |run| + 1 && forall k :: 0 <= k < |run| ==> next(states[k], run[k]) == Some(states[k + 1])
  }

  lemma {:induction false} TraceExec<S, A>(next: (S, A) -> Option<S>, states: seq<S>, run: seq<A>)
    requires Trace(next, states, run)
    ensures Exec(next, states[0], run) == Some(states[|run|])
    decreases |run|
  {
    if run != [] {
      forall k | 0 <= k < |run| - 1 ensures next(states[1..][k], run[1..][k]) == Some(states[1..][k + 1]) {
        assert next(states[k + 1], run[k + 1]) == Some(states[k + 2]);
      }
      TraceExec(next, states[1..], run[1..]);
    }
  }

  /** One and two steps, as runs. */
  lemma OneStep<S, A>(next: (S, A) -> Option<S>, s: S, a: A, s1: S)
    requires next(s, a) == Some(s1)
    ensures Exec(next, s, [a]) == Some(s1)
  {}

  lemma TwoSteps<S, A>(next: (S, A) -> Option<S>, s: S, a: A, s1: S, b: A, s2: S)
    requires next(s, a) == Some(s1) && next(s1, b) == Some(s2)
    ensures Exec(next, s, [a, b]) == Some(s2)
  {
    assert [a, b][1..] == [b];
    OneStep(next, s1, b, s2);
  }

  /** Two runs in a row. */
  lemma Then<S, A>(next: (S, A) -> Option<S>, s: S, r1: seq<A>, m: S, r2: seq<A>, e: S)
    requires Exec(next, s, r1) == Some(m) && Exec(next, m, r2) == Some(e)
    ensures Exec(next, s, r1 + r2) == Some(e)
  {
    ExecAppend(next, s, r1, r2);
  }

  /** A run can be cut anywhere. */
  lemma {:induction false} ExecAppend<S, A>(next: (S, A) -> Option<S>, s: S, r1: seq<A>, r2: seq<A>)
    ensures Exec(next, s, r1 + r2)
         == match Exec(next, s, r1) case None => None case Some(m) => Exec(next, m, r2)
    decreases |r1|
  {
    if r1 == [] {
      assert r1 + r2 == r2;
    } else {
      assert (r1 + r2)[0] == r1[0] && (r1 + r2)[1..] == r1[1..] + r2;
      match next(s, r1[0])
      case None =>
      case Some(s1) => ExecAppend(next, s1, r1[1..], r2);
    }
  }
}

/** A sequence without one of its elements, and sequences of different elements. */
module Seqs {
  function Without<T>(xs: seq<T>, i: nat): seq<T>
    requires i < |xs|
  {
    xs[..i] + xs[i + 1..]
  }

  predicate NoRepeats<T(==)>(xs: seq<T>) { forall i, j :: 0 <= i < j < |xs| ==> xs[i] != xs[j] }
}

/** Sums over the cells of a sequence, each cell weighed for one key, and how a changed cell changes them. */
module Folds {
  import opened Seqs

  function Tally<A, K>(f: (A, K) -> int, s: seq<A>, k: K): int {
    if s == [] then 0 else f(s[0], k) + Tally(f, s[1..], k)
  }

  lemma {:induction false} TallyUpdate<A, K>(f: (A, K) -> int, s: seq<A>, i: nat, x: A, k: K)
    requires i < |s|
    ensures Tally(f, s[i := x], k) == Tally(f, s, k) - f(s[i], k) + f(x, k)
  {
    if i == 0 {
      assert s[i := x][1..] == s[1..];
    } else {
      assert s[i := x][1..] == s[1..][i - 1 := x];
      TallyUpdate(f, s[1..], i - 1, x, k);
    }
  }

  lemma {:induction false} TallyAppend<A, K>(f: (A, K) -> int, s: seq<A>, t: seq<A>, k: K)
    ensures Tally(f, s + t, k) == Tally(f, s, k) + Tally(f, t, k)
  {
    if s == [] {
      assert s + t == t;
    } else {
      assert (s + t)[0] == s[0] && (s + t)[1..] == s[1..] + t;
      TallyAppend(f, s[1..], t, k);
    }
  }

  lemma TallyWithout<A, K>(f: (A, K) -> int, s: seq<A>, i: nat, k: K)
    requires i < |s|
    ensures Tally(f, Without(s, i), k) == Tally(f, s, k) - f(s[i], k)
  {
    assert s == s[..i] + ([s[i]] + s[i + 1..]);
    TallyAppend(f, s[..i], [s[i]] + s[i + 1..], k);
    TallyAppend(f, [s[i]], s[i + 1..], k);
    TallyAppend(f, s[..i], s[i + 1..], k);
  }

  /** With no negative cell, the tally is at least any cell. */
  lemma {:induction false} TallyCell<A(!new), K>(f: (A, K) -> int, s: seq<A>, k: K, i: nat)
    requires forall x :: 0 <= f(x, k)
    requires i < |s|
    ensures 0 <= f(s[i], k) <= Tally(f, s, k)
  {
    TallyNonNegative(f, s[1..], k);
    if i > 0 {
      TallyCell(f, s[1..], k, i - 1);
    }
  }

  lemma {:induction false} TallyPair<A(!new), K>(f: (A, K) -> int, s: seq<A>, k: K, i: nat, j: nat)
    requires forall x :: 0 <= f(x, k)
    requires i < j < |s|
    ensures f(s[i], k) + f(s[j], k) <= Tally(f, s, k)
  {
    if i == 0 {
      TallyCell(f, s[1..], k, j - 1);
    } else {
      TallyPair(f, s[1..], k, i - 1, j - 1);
    }
  }

  lemma {:induction false} TallyNonNegative<A(!new), K>(f: (A, K) -> int, s: seq<A>, k: K)
    requires forall x :: 0 <= f(x, k)
    ensures 0 <= Tally(f, s, k)
  {
    if s != [] {
      TallyNonNegative(f, s[1..], k);
    }
  }

  lemma {:induction false} TallyMonotone<A(!new), K>(f: (A, K) -> int, s: seq<A>, k: K, l: K)
    requires forall x :: f(x, k) <= f(x, l)
    ensures Tally(f, s, k) <= Tally(f, s, l)
  {
    if s != [] {
      TallyMonotone(f, s[1..], k, l);
    }
  }

  lemma {:induction false} TallyAtMost<A(!new), K>(f: (A, K) -> int, s: seq<A>, k: K, hi: int)
    requires forall x :: x in s ==> f(x, k) <= hi
    ensures Tally(f, s, k) <= hi * |s|
  {
    if s != [] {
      assert forall x :: x in s[1..] ==> x in s;
      TallyAtMost(f, s[1..], k, hi);
      Distribute(hi, |s| - 1);
    }
  }

  lemma Distribute(a: int, n: int)
    ensures a * (n + 1) == a + a * n
  {}

  lemma {:induction false} TallyZero<A(!new), K>(f: (A, K) -> int, s: seq<A>, k: K)
    requires forall x :: x in s ==> f(x, k) == 0
    ensures Tally(f, s, k) == 0
  {
    if s != [] {
      assert forall x :: x in s[1..] ==> x in s;
      TallyZero(f, s[1..], k);
    }
  }

  /** A positive tally comes from some cell. */
  lemma {:induction false} TallySource<A(!new), K>(f: (A, K) -> int, s: seq<A>, k: K) returns (i: nat)
    requires Tally(f, s, k) > 0
    ensures i < |s| && f(s[i], k) > 0
  {
    if f(s[0], k) > 0 {
      i := 0;
    } else {
      i := TallySource(f, s[1..], k);
      i := i + 1;
    }
  }

  /** The sum of the entries of a map; the order of its entries does not matter. */
  ghost function SumMap<K(!new), V(!new)>(f: (K, V) -> int, m: map<K, V>): int
    decreases |m|
  {
    if m == map[] then 0
    else
      var k :| k in m;
      Smaller(m, k);
      f(k, m[k]) + SumMap(f, m - {k})
  }

  lemma Smaller<K, V>(m: map<K, V>, k: K)
    requires k in m
    ensures |m - {k}| == |m| - 1
  {
    assert m.Keys == (m - {k}).Keys + {k};
    assert |m| == |m.Keys| && |m - {k}| == |(m - {k}).Keys|;
  }

  lemma {:induction false} SumWithout<K(!new), V(!new)>(f: (K, V) -> int, m: map<K, V>, k: K)
    requires k in m
    ensures SumMap(f, m) == f(k, m[k]) + SumMap(f, m - {k})
    decreases |m|
  {
    var j :| j in m && SumMap(f, m) == f(j, m[j]) + SumMap(f, m - {j});
    if j != k {
      Smaller(m, j);
      Smaller(m, k);
      SumWithout(f, m - {j}, k);
      SumWithout(f, m - {k}, j);
      assert m - {j} - {k} == m - {k} - {j};
    }
  }

  lemma SumWith<K(!new), V(!new)>(f: (K, V) -> int, m: map<K, V>, k: K, v: V)
    requires k !in m
    ensures SumMap(f, m[k := v]) == SumMap(f, m) + f(k, v)
  {
    SumWithout(f, m[k := v], k);
    assert m[k := v] - {k} == m;
  }

  /** How often a value occurs. */
  function Same<T(==)>(x: T, y: T): int { if x == y then 1 else 0 }

  function Count<T(==)>(s: seq<T>, x: T): int { Tally(Same<T>, s, x) }

  lemma {:induction false} CountPositive<T(!new)>(s: seq<T>, x: T)
    ensures Count(s, x) >= 0
    ensures Count(s, x) > 0 <==> x in s
  {
    if s != [] {
      CountPositive(s[1..], x);
    }
  }
}

/** Division and remainder by a variable divisor. */
module Modular {
  lemma MulGap(n: nat, a: nat, b: nat)
    ensures a < b ==> n * a + n <= n * b
  {
    if a < b {
      assert n * b == n * a + n * (b - a);
      assert n * (b - a) == n * (b - a - 1) + n;
    }
  }

  lemma DivModUnique(k: nat, n: nat, d: nat, r: nat)
    requires n > 0 && r < n && k == n * d + r
    ensures k / n == d && k % n == r
  {
    MulGap(n, k / n, d);
    MulGap(n, d, k / n);
  }

  lemma NextTicket(k: nat, n: nat)
    requires n > 0
    ensures if k % n == n - 1 then (k + 1) / n == k / n + 1 && (k + 1) % n == 0
            else (k + 1) / n == k / n && (k + 1) % n == k % n + 1
  {
    if k % n == n - 1 {
      assert n * (k / n + 1) == n * (k / n) + n;
      DivModUnique(k + 1, n, k / n + 1, 0);
    } else {
      DivModUnique(k + 1, n, k / n, k % n + 1);
    }
  }

  lemma NextResidue(k: nat, n: nat)
    requires n > 0
    ensures (k % n + 1) % n == (k + 1) % n
  {
    NextTicket(k, n);
    if n == 1 { assert (k + 1) % 1 == 0; }
  }

  lemma AddModulus(k: nat, n: nat)
    requires n > 0
    ensures (k + n) / n == k / n + 1 && (k + n) % n == k % n
  {
    var d, r := k / n, k % n;
    assert n * (d + 1) == n * d + n;
    DivModUnique(k + n, n, d + 1, r);
  }
}
