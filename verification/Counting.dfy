/** Counting of random tapes.

    The verifier of a contribution draws field elements. A tape is the sequence of all of
    them, so "the probability of a wrong verdict" is a count of tapes. */
module Counting {
  import opened PrimeField

  function Power(p: nat, n: nat): (r: nat)
    ensures p > 0 ==> r > 0
  {
    if n == 0 then 1 else p * Power(p, n - 1)
  }

  lemma {:induction false} PowerAdd(p: nat, a: nat, b: nat)
    ensures Power(p, a + b) == Power(p, a) * Power(p, b)
  {
    if a > 0 {
      PowerAdd(p, a - 1, b);
      Associate(p, Power(p, a - 1), Power(p, b));
    }
  }

  lemma Associate(a: int, b: int, c: int)
    ensures a * (b * c) == (a * b) * c
  {
  }

  ghost predicate IsTape(p: Order, n: nat, tape: seq<nat>) {
    |tape| == n && InRange(p, tape)
  }

  ghost function Below(p: nat): (xs: set<nat>)
    ensures forall x: nat :: x in xs <==> x < p
    ensures |xs| == p
  {
    if p == 0 then {} else Below(p - 1) + {p - 1}
  }

  /** All tapes of `n` draws. */
  ghost function Tapes(p: Order, n: nat): set<seq<nat>> {
    if n == 0 then {[]}
    else set x, v | x in Below(p) && v in Tapes(p, n - 1) :: [x] + v
  }

  lemma {:induction false} TapesAreAll(p: Order, n: nat, tape: seq<nat>)
    ensures tape in Tapes(p, n) <==> IsTape(p, n, tape)
  {
    if n > 0 && |tape| > 0 {
      var x, v := tape[0], tape[1..];
      TapesAreAll(p, n - 1, v);
      assert tape == [x] + v;
      if IsTape(p, n, tape) {
        assert x in Below(p) && v in Tapes(p, n - 1);
      }
      if tape in Tapes(p, n) {
        var x', v' :| x' in Below(p) && v' in Tapes(p, n - 1) && tape == [x'] + v';
        assert v' == v;
        assert forall i | 0 <= i < |tape| :: tape[i] == if i == 0 then x else v[i - 1];
      }
    }
  }

  lemma TapesExact(p: Order, n: nat)
    ensures forall tape :: tape in Tapes(p, n) <==> IsTape(p, n, tape)
  {
    forall tape ensures tape in Tapes(p, n) <==> IsTape(p, n, tape) {
      TapesAreAll(p, n, tape);
    }
  }

  ghost function Fibre<A(!new), B(!new)>(S: set<A>, f: A -> B, w: B): set<A> {
    set a | a in S && f(a) == w
  }

  /** Take the fibre over one element away. */
  lemma PeelFibre<A(!new), B(!new)>(S: set<A>, W: set<B>, f: A -> B, w: B)
    requires w in W && forall a | a in S :: f(a) in W
    ensures |S| == |Fibre(S, f, w)| + |S - Fibre(S, f, w)|
    ensures forall a | a in S - Fibre(S, f, w) :: f(a) in W - {w}
    ensures forall v | v in W - {w} :: Fibre(S - Fibre(S, f, w), f, v) == Fibre(S, f, v)
    ensures |W| == |W - {w}| + 1
  {
    var F := Fibre(S, f, w);
    assert S == F + (S - F);
  }

  lemma MultiplySuccessor(k: nat, n: nat)
    ensures k * (n + 1) == k * n + k
  {
  }

  /** If every fibre of `f` over `W` has at most `k` elements, `S` has at most `k * |W|`. */
  lemma {:induction false} FibreBound<A(!new), B(!new)>(S: set<A>, W: set<B>, f: A -> B, k: nat)
    requires forall a | a in S :: f(a) in W
    requires forall w | w in W :: |Fibre(S, f, w)| <= k
    ensures |S| <= k * |W|
    decreases |W|
  {
    if W == {} {
      assert S == {};
    } else {
      var w :| w in W;
      PeelFibre(S, W, f, w);
      FibreBound(S - Fibre(S, f, w), W - {w}, f, k);
      MultiplySuccessor(k, |W - {w}|);
    }
  }

  /** If every fibre of `f` over `W` has exactly `k` elements, `S` has exactly `k * |W|`. */
  lemma {:induction false} FibreExact<A(!new), B(!new)>(S: set<A>, W: set<B>, f: A -> B, k: nat)
    requires forall a | a in S :: f(a) in W
    requires forall w | w in W :: |Fibre(S, f, w)| == k
    ensures |S| == k * |W|
    decreases |W|
  {
    if W == {} {
      assert S == {};
    } else {
      var w :| w in W;
      PeelFibre(S, W, f, w);
      FibreExact(S - Fibre(S, f, w), W - {w}, f, k);
      MultiplySuccessor(k, |W - {w}|);
    }
  }

  /** An injection of `S` into `T` bounds the size of `S`. */
  lemma {:induction false} InjectionBound<A(!new), B(!new)>(S: set<A>, T: set<B>, g: A -> B)
    requires forall a | a in S :: g(a) in T
    requires forall a, b | a in S && b in S && g(a) == g(b) :: a == b
    ensures |S| <= |T|
  {
    forall w | w in T ensures |Fibre(S, g, w)| <= 1 {
      var F := Fibre(S, g, w);
      if a :| a in F {
        assert F == {a};
      } else {
        assert F == {};
      }
    }
    FibreBound(S, T, g, 1);
  }

  lemma SubsetBound<A>(S: set<A>, T: set<A>)
    requires S <= T
    ensures |S| <= |T|
  {
    assert T == S + (T - S);
  }

  lemma UnionBound<A>(S: set<A>, T: set<A>, U: set<A>)
    requires S <= T + U
    ensures |S| <= |T| + |U|
  {
    SubsetBound(S, T + U);
    assert |T + U| == |T| + |U| - |T * U|;
  }

  /** There are `p^n` tapes of length `n`. */
  lemma {:induction false} TapeCount(p: Order, n: nat)
    ensures |Tapes(p, n)| == Power(p, n)
  {
    if n > 0 {
      TapeCount(p, n - 1);
      TapesExact(p, n);
      TapesExact(p, n - 1);
      var tail := (t: seq<nat>) => if |t| == 0 then [] else t[1..];
      forall t | t in Tapes(p, n) ensures tail(t) in Tapes(p, n - 1) {
        assert IsTape(p, n - 1, t[1..]);
      }
      forall v | v in Tapes(p, n - 1) ensures |Fibre(Tapes(p, n), tail, v)| == p {
        HeadCount(p, n, v, tail);
      }
      FibreExact(Tapes(p, n), Tapes(p, n - 1), tail, p);
    }
  }

  /** Any draw may precede a given tape. */
  lemma HeadCount(p: Order, n: nat, v: seq<nat>, tail: seq<nat> -> seq<nat>)
    requires n > 0 && v in Tapes(p, n - 1)
    requires forall t | |t| > 0 :: tail(t) == t[1..]
    ensures |Fibre(Tapes(p, n), tail, v)| == p
  {
    hide Tapes, Fibre;
    var F := Fibre(Tapes(p, n), tail, v);
    var cons := (x: nat) => [x] + v;
    forall x | x in Below(p) ensures cons(x) in F {
      HeadFits(p, n, v, tail, x);
    }
    forall x, y | x in Below(p) && y in Below(p) && cons(x) == cons(y) ensures x == y {
      assert cons(x)[0] == cons(y)[0];
    }
    InjectionBound(Below(p), F, cons);
    forall t | t in F ensures |t| > 0 && t[0] < p && t[1..] == v {
      FibreFits(p, n, v, tail, t);
    }
    HeadBound(p, F, v);
  }

  lemma HeadFits(p: Order, n: nat, v: seq<nat>, tail: seq<nat> -> seq<nat>, x: nat)
    requires n > 0 && v in Tapes(p, n - 1) && x < p && forall t | |t| > 0 :: tail(t) == t[1..]
    ensures [x] + v in Fibre(Tapes(p, n), tail, v)
  {
    hide Tapes, InRange;
    TapesAreAll(p, n - 1, v);
    TapesAreAll(p, n, [x] + v);
    OneMoreInRange(p, v, x);
    assert ([x] + v)[1..] == v;
  }

  lemma OneMoreInRange(p: Order, v: seq<nat>, x: nat)
    requires InRange(p, v) && x < p
    ensures InRange(p, [x] + v)
  {
  }

  lemma FibreFits(p: Order, n: nat, v: seq<nat>, tail: seq<nat> -> seq<nat>, t: seq<nat>)
    requires n > 0 && t in Fibre(Tapes(p, n), tail, v) && forall t | |t| > 0 :: tail(t) == t[1..]
    ensures |t| > 0 && t[0] < p && t[1..] == v
  {
    hide Tapes;
    TapesAreAll(p, n, t);
  }

  lemma HeadBound(p: Order, F: set<seq<nat>>, v: seq<nat>)
    requires forall t | t in F :: |t| > 0 && t[0] < p && t[1..] == v
    ensures |F| <= p
  {
    var head := (t: seq<nat>) => if |t| == 0 then 0 else t[0];
    forall t, u | t in F && u in F && head(t) == head(u) ensures t == u {
      assert t == [t[0]] + t[1..] && u == [u[0]] + u[1..];
    }
    InjectionBound(F, Below(p), head);
  }

  // ---- Removing a stretch of a tape ----

  function Without(t: seq<nat>, a: nat, b: nat): seq<nat> {
    if a <= b <= |t| then t[..a] + t[b..] else []
  }

  lemma WithoutIsTape(p: Order, n: nat, t: seq<nat>, a: nat, b: nat)
    requires a <= b <= n && IsTape(p, n, t)
    ensures IsTape(p, n - (b - a), Without(t, a, b))
  {
    var w := Without(t, a, b);
    forall i | 0 <= i < |w| ensures w[i] < p {
      assert w[i] == if i < a then t[i] else t[i + (b - a)];
    }
  }

  /** If, whatever the rest of the tape, at most `k` stretches `[a, b)` complete it to an
      element of `S`, then `S` has at most `k * p^(n - (b - a))` elements. */
  lemma StretchBound(p: Order, n: nat, S: set<seq<nat>>, a: nat, b: nat, cut: seq<nat> -> seq<nat>, k: nat)
    requires a <= b <= n && S <= Tapes(p, n)
    requires forall t :: cut(t) == Without(t, a, b)
    requires forall w | w in Tapes(p, n - (b - a)) :: |Fibre(S, cut, w)| <= k
    ensures |S| <= k * Power(p, n - (b - a))
  {
    var rest: nat := n - (b - a);
    TapesExact(p, n);
    TapesExact(p, rest);
    forall t | t in S ensures cut(t) in Tapes(p, rest) {
      WithoutIsTape(p, n, t, a, b);
    }
    FibreBound(S, Tapes(p, rest), cut, k);
    TapeCount(p, rest);
  }

  /** Two tapes that agree outside a stretch and on it are equal. */
  lemma StretchSplit(t: seq<nat>, u: seq<nat>, a: nat, b: nat)
    requires |t| == |u| && a <= b <= |t|
    requires Without(t, a, b) == Without(u, a, b) && t[a..b] == u[a..b]
    ensures t == u
  {
    assert t == t[..a] + t[a..b] + t[b..];
    assert u == u[..a] + u[a..b] + u[b..];
    assert Without(t, a, b)[..a] == t[..a] && Without(t, a, b)[a..] == t[b..];
    assert Without(u, a, b)[..a] == u[..a] && Without(u, a, b)[a..] == u[b..];
  }
}
