/** How often random batching hides a wrong equation.

    A verifier call folds many equations into one, in nested layers. `Tree` is that nesting
    over the values of the unbatched equations; a tape holds the scalars in the order in
    which they are drawn, those of the parts before those of the whole. */
module Batching {
  import opened PrimeField
  import opened Counting
  import opened MultipairingEquations

  datatype Tree =
    | Leaf(value: int)
    | Combined(left: Tree, right: Tree)
    | Compacted(parts: seq<Tree>)

  function Draws(t: Tree): nat
    decreases t, 1
  {
    match t
    case Leaf(_) => 0
    case Combined(l, r) => Draws(l) + Draws(r) + 1
    case Compacted(parts) => DrawsOfAll(parts) + |parts|
  }

  function DrawsOfAll(ts: seq<Tree>): nat
    decreases ts, 0
  {
    if ts == [] then 0 else Draws(ts[0]) + DrawsOfAll(ts[1..])
  }

  /** The value of the batched equation, as an integer combination of the leaves. */
  function Eval(t: Tree, tape: seq<nat>): int
    requires |tape| == Draws(t)
    decreases t, 1
  {
    match t
    case Leaf(v) => v
    case Combined(l, r) =>
      Accumulate(Eval(l, LeftDraws(l, r, tape)), LastDraw(l, r, tape), Eval(r, RightDraws(l, r, tape)))
    case Compacted(parts) =>
      Dot(EvalAll(parts, PartDraws(parts, tape)), ScalarDraws(parts, tape))
  }

  // The stretches of a tape: first what the parts draw, then the scalars that batch them.

  function LeftDraws(l: Tree, r: Tree, tape: seq<nat>): (t: seq<nat>)
    requires |tape| == Draws(Combined(l, r))
    ensures |t| == Draws(l)
  {
    tape[..Draws(l)]
  }

  function RightDraws(l: Tree, r: Tree, tape: seq<nat>): (t: seq<nat>)
    requires |tape| == Draws(Combined(l, r))
    ensures |t| == Draws(r)
  {
    tape[Draws(l)..Draws(l) + Draws(r)]
  }

  function LastDraw(l: Tree, r: Tree, tape: seq<nat>): nat
    requires |tape| == Draws(Combined(l, r))
  {
    tape[Draws(l) + Draws(r)]
  }

  function PartDraws(parts: seq<Tree>, tape: seq<nat>): (t: seq<nat>)
    requires |tape| == Draws(Compacted(parts))
    ensures |t| == DrawsOfAll(parts)
  {
    tape[..DrawsOfAll(parts)]
  }

  function ScalarDraws(parts: seq<Tree>, tape: seq<nat>): (t: seq<nat>)
    requires |tape| == Draws(Compacted(parts))
    ensures |t| == |parts|
  {
    tape[DrawsOfAll(parts)..]
  }

  function EvalAll(ts: seq<Tree>, tape: seq<nat>): (vs: seq<int>)
    requires |tape| == DrawsOfAll(ts)
    ensures |vs| == |ts|
    decreases ts, 0
  {
    if ts == [] then []
    else [Eval(ts[0], tape[..Draws(ts[0])])] + EvalAll(ts[1..], tape[Draws(ts[0])..])
  }

  /** Every unbatched equation holds. */
  ghost predicate AllZero(p: Order, t: Tree)
    decreases t
  {
    match t
    case Leaf(v) => IsZero(p, v)
    case Combined(l, r) => AllZero(p, l) && AllZero(p, r)
    case Compacted(parts) => forall part | part in parts :: AllZero(p, part)
  }

  function Max(a: nat, b: nat): nat {
    if a < b then b else a
  }

  /** How deeply the leaves are nested. */
  function Layers(t: Tree): nat
    decreases t, 1
  {
    match t
    case Leaf(_) => 0
    case Combined(l, r) => Max(Layers(l), Layers(r)) + 1
    case Compacted(parts) => LayersOfAll(parts) + 1
  }

  function LayersOfAll(ts: seq<Tree>): nat
    decreases ts, 0
  {
    if ts == [] then 0 else Max(Layers(ts[0]), LayersOfAll(ts[1..]))
  }

  lemma {:induction false} LayersOfPart(ts: seq<Tree>, t: Tree)
    requires t in ts
    ensures Layers(t) <= LayersOfAll(ts)
  {
    if t != ts[0] {
      LayersOfPart(ts[1..], t);
    }
  }

  /** The tapes on which the batched equation holds. */
  ghost function AcceptingTapes(p: Order, t: Tree): set<seq<nat>> {
    set tape | tape in Tapes(p, Draws(t)) && Accepts(p, t, tape)
  }

  ghost predicate Accepts(p: Order, t: Tree, tape: seq<nat>) {
    |tape| == Draws(t) && IsZero(p, Eval(t, tape))
  }

  // ---- Completeness of batching ----

  /** Equations that all hold are accepted on every tape. */
  lemma {:induction false} ZeroOnEveryTape(p: Order, t: Tree, tape: seq<nat>)
    requires AllZero(p, t) && |tape| == Draws(t)
    ensures IsZero(p, Eval(t, tape))
    decreases t, 1
  {
    hide IsZero;
    match t
    case Leaf(_) =>
    case Combined(l, r) =>
      var left, right := LeftDraws(l, r, tape), RightDraws(l, r, tape);
      ZeroOnEveryTape(p, l, left);
      ZeroOnEveryTape(p, r, right);
      AccumulateZero(p, Eval(l, left), LastDraw(l, r, tape), Eval(r, right));
    case Compacted(parts) =>
      ZeroOnEveryTapeAll(p, parts, PartDraws(parts, tape));
      DotZeros(p, EvalAll(parts, PartDraws(parts, tape)), ScalarDraws(parts, tape));
  }

  lemma AccumulateZero(p: Order, a: int, s: int, b: int)
    requires IsZero(p, b)
    ensures IsZero(p, a) <==> IsZero(p, Accumulate(a, s, b))
  {
    hide IsZero;
    ZeroMul(p, b, s);
    ZeroTransfer(p, a + s * b, a);
  }

  lemma {:induction false} ZeroOnEveryTapeAll(p: Order, ts: seq<Tree>, tape: seq<nat>)
    requires forall t | t in ts :: AllZero(p, t)
    requires |tape| == DrawsOfAll(ts)
    ensures forall i | 0 <= i < |ts| :: IsZero(p, EvalAll(ts, tape)[i])
    decreases ts, 0
  {
    hide IsZero;
    if ts != [] {
      ZeroOnEveryTape(p, ts[0], tape[..Draws(ts[0])]);
      ZeroOnEveryTapeAll(p, ts[1..], tape[Draws(ts[0])..]);
    }
  }

  // ---- Positions of the parts on the tape ----

  lemma {:induction false} DrawsOfPrefix(ts: seq<Tree>, i: nat)
    requires i < |ts|
    ensures DrawsOfAll(ts[..i]) + Draws(ts[i]) <= DrawsOfAll(ts)
  {
    if i > 0 {
      DrawsOfPrefix(ts[1..], i - 1);
      assert ts[..i][1..] == ts[1..][..i - 1];
    }
  }

  lemma {:induction false} EvalAllAt(ts: seq<Tree>, tape: seq<nat>, i: nat)
    requires i < |ts| && |tape| == DrawsOfAll(ts)
    ensures var a := DrawsOfAll(ts[..i]); var b := a + Draws(ts[i]);
      b <= |tape| && EvalAll(ts, tape)[i] == Eval(ts[i], tape[a..b])
  {
    hide Eval, Draws;
    DrawsOfPrefix(ts, i);
    var d := Draws(ts[0]);
    if i == 0 {
      assert tape[0..d] == tape[..d];
    } else {
      EvalAllAt(ts[1..], tape[d..], i - 1);
      EvalAllTail(ts, tape, i);
      var a := DrawsOfAll(ts[1..][..i - 1]);
      SliceOfDrop(tape, d, a, a + Draws(ts[i]));
    }
  }

  lemma EvalAllTail(ts: seq<Tree>, tape: seq<nat>, i: nat)
    requires 0 < i < |ts| && |tape| == DrawsOfAll(ts)
    ensures EvalAll(ts, tape)[i] == EvalAll(ts[1..], tape[Draws(ts[0])..])[i - 1]
    ensures DrawsOfAll(ts[..i]) == Draws(ts[0]) + DrawsOfAll(ts[1..][..i - 1])
  {
    hide Eval, Draws;
    assert ts[..i][1..] == ts[1..][..i - 1];
  }

  lemma SliceOfDrop(t: seq<nat>, d: nat, a: nat, b: nat)
    requires a <= b && d + b <= |t|
    ensures t[d..][a..b] == t[d + a..d + b]
  {
  }

  // ---- Counting ----

  /** Tapes on which one part holds: at most its own share of all tapes. */
  lemma PartBound(p: Order, n: nat, a: nat, b: nat, part: Tree, S: set<seq<nat>>)
    requires a <= b <= n && b - a == Draws(part)
    requires forall t | t in S :: t in Tapes(p, n) && |t| == n && Accepts(p, part, t[a..b])
    ensures |S| <= |AcceptingTapes(p, part)| * Power(p, n - (b - a))
  {
    hide IsZero, Eval;
    TapesExact(p, n);
    TapesExact(p, b - a);
    var cut := (t: seq<nat>) => Without(t, a, b);
    var A := AcceptingTapes(p, part);
    forall w | w in Tapes(p, n - (b - a)) ensures |Fibre(S, cut, w)| <= |A| {
      PartFibre(p, n, a, b, part, Fibre(S, cut, w), w);
    }
    StretchBound(p, n, S, a, b, cut, |A|);
  }

  lemma PartFibre(p: Order, n: nat, a: nat, b: nat, part: Tree, F: set<seq<nat>>, w: seq<nat>)
    requires a <= b <= n && b - a == Draws(part)
    requires forall t | t in F :: IsTape(p, n, t) && Accepts(p, part, t[a..b]) && Without(t, a, b) == w
    ensures |F| <= |AcceptingTapes(p, part)|
  {
    hide IsZero, Eval;
    TapesExact(p, b - a);
    var stretch := (t: seq<nat>) => if |t| == n then t[a..b] else [];
    forall t | t in F ensures stretch(t) in AcceptingTapes(p, part) {
      assert IsTape(p, b - a, t[a..b]);
    }
    forall t, u | t in F && u in F && stretch(t) == stretch(u) ensures t == u {
      StretchSplit(t, u, a, b);
    }
    InjectionBound(F, AcceptingTapes(p, part), stretch);
  }

  /** Tapes determined by all draws but one: at most one in `p`. */
  lemma OneScalarBound(p: Order, n: nat, j: nat, S: set<seq<nat>>)
    requires j < n && S <= Tapes(p, n)
    requires forall t, u | t in S && u in S && Without(t, j, j + 1) == Without(u, j, j + 1) :: t == u
    ensures |S| <= Power(p, n - 1)
  {
    var cut := (t: seq<nat>) => Without(t, j, j + 1);
    forall w | w in Tapes(p, n - 1) ensures |Fibre(S, cut, w)| <= 1 {
      var F := Fibre(S, cut, w);
      if t :| t in F {
        assert F == {t};
      } else {
        assert F == {};
      }
    }
    StretchBound(p, n, S, j, j + 1, cut, 1);
  }

  /** Two values of a scalar that both cancel a nonzero value are the same. */
  lemma ScalarUnique(p: Order, rest: int, e: int, s: nat, s': nat)
    requires !IsZero(p, e) && s < p && s' < p
    requires IsZero(p, Accumulate(rest, s, e)) && IsZero(p, Accumulate(rest, s', e))
    ensures s == s'
  {
    hide IsZero;
    ZeroAdd(p, rest + s * e, rest + s' * e);
    assert s * e - s' * e == e * s - e * s';
    Cancel(p, e, s, s');
    CanonicalUnique(p, s, s');
  }

  lemma {:induction false} DotOneChanged(xs: seq<int>, ys: seq<int>, zs: seq<int>, i: nat)
    requires |xs| == |ys| == |zs| && i < |xs|
    requires forall j | 0 <= j < |xs| && j != i :: ys[j] == zs[j]
    ensures Dot(xs, ys) - ys[i] * xs[i] == Dot(xs, zs) - zs[i] * xs[i]
  {
    if i == 0 {
      assert ys[1..] == zs[1..];
    } else {
      DotOneChanged(xs[1..], ys[1..], zs[1..], i - 1);
    }
  }

  /** At most `layers` in `p` of all tapes of length `n`. */
  ghost predicate Bounded(p: Order, S: set<seq<nat>>, layers: nat, n: nat) {
    |S| * p <= layers * Power(p, n)
  }

  ghost predicate WrongPart(p: Order, part: Tree) {
    Bounded(p, AcceptingTapes(p, part), Layers(part), Draws(part))
  }

  /** The bound of one part and the new chance of a layer add up. */
  lemma LayerSum(p: Order, n: nat, d: nat, S: set<seq<nat>>, hidden: nat, cancelled: nat, A: set<seq<nat>>, layers: nat)
    requires d <= n && n > 0
    requires |S| <= hidden + cancelled
    requires hidden <= |A| * Power(p, n - d)
    requires Bounded(p, A, layers, d)
    requires cancelled <= Power(p, n - 1)
    ensures Bounded(p, S, layers + 1, n)
  {
    HiddenShare(p, Power(p, d), Power(p, n - d), hidden, |A|, layers);
    PowerAdd(p, d, n - d);
    MultiplyMonotone(cancelled, Power(p, n - 1), p);
    MultiplyMonotone(|S|, hidden + cancelled, p);
    assert Power(p, n) == Power(p, n - 1) * p;
    Distribute(hidden, cancelled, p);
    Distribute(layers, 1, Power(p, n));
  }

  lemma HiddenShare(p: nat, x: nat, y: nat, hidden: nat, part: nat, layers: nat)
    requires hidden <= part * y
    requires part * p <= layers * x
    ensures hidden * p <= layers * (x * y)
  {
    MultiplyMonotone(hidden, part * y, p);
    assert (part * y) * p == (part * p) * y;
    MultiplyMonotone(part * p, layers * x, y);
    Associate(layers, x, y);
  }

  lemma Distribute(a: int, b: int, c: int)
    ensures (a + b) * c == a * c + b * c
  {
  }

  lemma MultiplyMonotone(a: nat, b: nat, c: nat)
    requires a <= b
    ensures a * c <= b * c
  {
    assert (b - a) * c >= 0;
  }

  lemma MoreLayers(p: Order, S: set<seq<nat>>, a: nat, b: nat, n: nat)
    requires Bounded(p, S, a, n) && a <= b
    ensures Bounded(p, S, b, n)
  {
    MultiplyMonotone(a, b, Power(p, n));
  }

  /** A tree with a wrong leaf is accepted on at most `Layers(t)` in `p` of all tapes. */
  lemma {:induction false} WrongLeafBound(p: Order, t: Tree)
    requires !AllZero(p, t)
    ensures |AcceptingTapes(p, t)| * p <= Layers(t) * Power(p, Draws(t))
    decreases t
  {
    WrongTree(p, t);
  }

  lemma {:induction false} WrongTree(p: Order, t: Tree)
    requires !AllZero(p, t)
    ensures WrongPart(p, t)
    decreases t
  {
    match t
    case Leaf(_) =>
      assert AcceptingTapes(p, t) == {};
    case Combined(l, r) =>
      hide Bounded, AcceptingTapes;
      if !AllZero(p, r) {
        WrongTree(p, r);
        CombinedBound(p, l, r);
        MoreLayers(p, AcceptingTapes(p, t), Layers(r) + 1, Layers(t), Draws(t));
      } else {
        WrongTree(p, l);
        LeftBound(p, l, r);
        MoreLayers(p, AcceptingTapes(p, t), Layers(l) + 1, Layers(t), Draws(t));
      }
    case Compacted(parts) =>
      hide Bounded, AcceptingTapes;
      var part :| part in parts && !AllZero(p, part);
      var i :| 0 <= i < |parts| && parts[i] == part;
      WrongTree(p, part);
      CompactedBound(p, parts, i);
      LayersOfPart(parts, part);
      MoreLayers(p, AcceptingTapes(p, t), Layers(part) + 1, Layers(t), Draws(t));
  }

  /** Where the part on the stretch `[a, b)` is wrong, the draw at `j` is determined by the others. */
  ghost predicate Pinned(p: Order, n: nat, S: set<seq<nat>>, a: nat, b: nat, part: Tree, j: nat)
    requires a <= b <= n
  {
    forall s, u | s in S && u in S ::
      IsTape(p, n, s) && (!Accepts(p, part, s[a..b]) && Without(s, j, j + 1) == Without(u, j, j + 1) ==> s == u)
  }

  /** One more layer: the part on the stretch `[a, b)` is scaled by the draw at `j`. */
  lemma LayerBound(p: Order, n: nat, S: set<seq<nat>>, a: nat, b: nat, part: Tree, j: nat)
    requires a <= b <= n && b - a == Draws(part) && j < n
    requires S <= Tapes(p, n)
    requires WrongPart(p, part)
    requires Pinned(p, n, S, a, b, part, j)
    ensures Bounded(p, S, Layers(part) + 1, n)
  {
    hide Accepts, AcceptingTapes, Layers, Bounded;
    TapesExact(p, n);
    var hidden := set s | s in S && Accepts(p, part, s[a..b]);
    var cancelled := S - hidden;
    PartBound(p, n, a, b, part, hidden);
    OneScalarBound(p, n, j, cancelled);
    UnionBound(S, hidden, cancelled);
    LayerSum(p, n, b - a, S, |hidden|, |cancelled|, AcceptingTapes(p, part), Layers(part));
  }

  lemma CombinedBound(p: Order, l: Tree, r: Tree)
    requires WrongPart(p, r)
    ensures Bounded(p, AcceptingTapes(p, Combined(l, r)), Layers(r) + 1, Draws(Combined(l, r)))
  {
    hide Eval, IsZero, Layers, Bounded;
    var t := Combined(l, r);
    var n, a, b := Draws(t), Draws(l), Draws(l) + Draws(r);
    TapesExact(p, n);
    var S := AcceptingTapes(p, t);
    forall s, u | s in S && u in S && !Accepts(p, r, s[a..b]) && Without(s, b, b + 1) == Without(u, b, b + 1)
      ensures s == u
    {
      CombinedScalar(p, l, r, s, u);
    }
    LayerBound(p, n, S, a, b, r, b);
  }

  lemma CombinedEval(l: Tree, r: Tree, s: seq<nat>)
    requires |s| == Draws(Combined(l, r))
    ensures Eval(Combined(l, r), s)
         == Accumulate(Eval(l, LeftDraws(l, r, s)), LastDraw(l, r, s), Eval(r, RightDraws(l, r, s)))
  {
  }

  lemma CombinedScalar(p: Order, l: Tree, r: Tree, s: seq<nat>, u: seq<nat>)
    requires var t := Combined(l, r); IsTape(p, Draws(t), s) && IsTape(p, Draws(t), u) && Accepts(p, t, s) && Accepts(p, t, u)
    requires !Accepts(p, r, s[Draws(l)..Draws(l) + Draws(r)])
    requires var b := Draws(l) + Draws(r); Without(s, b, b + 1) == Without(u, b, b + 1)
    ensures s == u
  {
    hide IsZero, Eval, Accumulate;
    var a, b := Draws(l), Draws(l) + Draws(r);
    AgreeElsewhere(s, u, b);
    assert LeftDraws(l, r, s) == s[..b][..a] && LeftDraws(l, r, u) == u[..b][..a];
    assert RightDraws(l, r, s) == s[..b][a..] && RightDraws(l, r, u) == u[..b][a..];
    CombinedEval(l, r, s);
    CombinedEval(l, r, u);
    ScalarUnique(p, Eval(l, LeftDraws(l, r, s)), Eval(r, RightDraws(l, r, s)), s[b], u[b]);
  }

  lemma LeftBound(p: Order, l: Tree, r: Tree)
    requires WrongPart(p, l) && AllZero(p, r)
    ensures Bounded(p, AcceptingTapes(p, Combined(l, r)), Layers(l) + 1, Draws(Combined(l, r)))
  {
    hide Eval, IsZero, Layers, Bounded, AllZero, Accepts, WrongPart;
    var t := Combined(l, r);
    var n, a := Draws(t), Draws(l);
    TapesExact(p, n);
    var S := AcceptingTapes(p, t);
    forall s | s in S ensures Accepts(p, l, s[0..a]) {
      LeftAccepts(p, l, r, s);
    }
    PartBound(p, n, 0, a, l, S);
    LeftShare(p, n, l, S);
  }

  lemma LeftShare(p: Order, n: nat, l: Tree, S: set<seq<nat>>)
    requires WrongPart(p, l) && Draws(l) < n
    requires |S| <= |AcceptingTapes(p, l)| * Power(p, n - Draws(l))
    ensures Bounded(p, S, Layers(l) + 1, n)
  {
    hide Bounded, AcceptingTapes;
    LayerSum(p, n, Draws(l), S, |S|, 0, AcceptingTapes(p, l), Layers(l));
  }

  lemma LeftAccepts(p: Order, l: Tree, r: Tree, s: seq<nat>)
    requires AllZero(p, r) && Accepts(p, Combined(l, r), s)
    ensures Accepts(p, l, s[0..Draws(l)])
  {
    hide IsZero, AllZero, Eval, Accumulate;
    assert s[0..Draws(l)] == LeftDraws(l, r, s);
    CombinedEval(l, r, s);
    ZeroOnEveryTape(p, r, RightDraws(l, r, s));
    AccumulateZero(p, Eval(l, LeftDraws(l, r, s)), LastDraw(l, r, s), Eval(r, RightDraws(l, r, s)));
  }

  lemma CompactedBound(p: Order, parts: seq<Tree>, i: nat)
    requires i < |parts| && WrongPart(p, parts[i])
    ensures Bounded(p, AcceptingTapes(p, Compacted(parts)), Layers(parts[i]) + 1, Draws(Compacted(parts)))
  {
    hide Eval, IsZero, Layers, Bounded, WrongPart, Tapes, Accepts, Without;
    var t := Compacted(parts);
    var n, a, d := Draws(t), DrawsOfAll(parts[..i]), DrawsOfAll(parts);
    var b := a + Draws(parts[i]);
    DrawsOfPrefix(parts, i);
    TapesExact(p, n);
    var S := AcceptingTapes(p, t);
    forall s, u | s in S && u in S && !Accepts(p, parts[i], s[a..b]) && Without(s, d + i, d + i + 1) == Without(u, d + i, d + i + 1)
      ensures s == u
    {
      CompactedScalar(p, parts, i, s, u);
    }
    LayerBound(p, n, S, a, b, parts[i], d + i);
  }

  /** Tapes that agree but at `k` agree before it and after it. */
  lemma AgreeElsewhere(s: seq<nat>, u: seq<nat>, k: nat)
    requires |s| == |u| && k < |s| && Without(s, k, k + 1) == Without(u, k, k + 1)
    ensures s[..k] == u[..k]
    ensures forall j | 0 <= j < |s| && j != k :: s[j] == u[j]
    ensures s[k] == u[k] ==> s == u
  {
    var w, w' := Without(s, k, k + 1), Without(u, k, k + 1);
    assert w[..k] == s[..k] && w'[..k] == u[..k];
    assert w[k..] == s[k + 1..] && w'[k..] == u[k + 1..];
    forall j | 0 <= j < |s| && j != k ensures s[j] == u[j] {
      if j < k {
        assert s[..k][j] == u[..k][j];
      } else {
        assert s[k + 1..][j - k - 1] == u[k + 1..][j - k - 1];
      }
    }
  }

  lemma CompactedEval(parts: seq<Tree>, s: seq<nat>)
    requires |s| == Draws(Compacted(parts))
    ensures Eval(Compacted(parts), s) == Dot(EvalAll(parts, PartDraws(parts, s)), ScalarDraws(parts, s))
  {
  }

  lemma CompactedScalar(p: Order, parts: seq<Tree>, i: nat, s: seq<nat>, u: seq<nat>)
    requires i < |parts|
    requires var t := Compacted(parts); IsTape(p, Draws(t), s) && IsTape(p, Draws(t), u) && Accepts(p, t, s) && Accepts(p, t, u)
    requires var a := DrawsOfAll(parts[..i]); var b := a + Draws(parts[i]);
      b <= |s| && !Accepts(p, parts[i], s[a..b])
    requires var k := DrawsOfAll(parts) + i; Without(s, k, k + 1) == Without(u, k, k + 1)
    ensures s == u
  {
    hide Eval, EvalAll, IsZero, Dot, Without, DrawsOfAll;
    var d, a := DrawsOfAll(parts), DrawsOfAll(parts[..i]);
    CompactedEval(parts, s);
    CompactedEval(parts, u);
    EvalAllAt(parts, s[..d], i);
    SliceOfTake(s, d, a, a + Draws(parts[i]));
    PinnedScalar(p, parts, i, d, s, u);
  }

  lemma SliceOfTake(t: seq<nat>, d: nat, a: nat, b: nat)
    requires a <= b <= d <= |t|
    ensures t[..d][a..b] == t[a..b]
  {
  }

  lemma PinnedScalar(p: Order, parts: seq<Tree>, i: nat, d: nat, s: seq<nat>, u: seq<nat>)
    requires i < |parts| && d == DrawsOfAll(parts)
    requires IsTape(p, d + |parts|, s) && IsTape(p, d + |parts|, u)
    requires IsZero(p, Dot(EvalAll(parts, s[..d]), s[d..])) && IsZero(p, Dot(EvalAll(parts, u[..d]), u[d..]))
    requires !IsZero(p, EvalAll(parts, s[..d])[i])
    requires Without(s, d + i, d + i + 1) == Without(u, d + i, d + i + 1)
    ensures s == u
  {
    hide EvalAll, IsZero, Dot, Without, DrawsOfAll;
    AgreeElsewhere(s, u, d + i);
    assert s[..d] == u[..d];
    ScalarFromDot(p, EvalAll(parts, s[..d]), s[d..], u[d..], i);
  }

  lemma ScalarFromDot(p: Order, vs: seq<int>, s: seq<nat>, u: seq<nat>, i: nat)
    requires |vs| == |s| == |u| && i < |vs|
    requires forall j | 0 <= j < |vs| && j != i :: s[j] == u[j]
    requires s[i] < p && u[i] < p && !IsZero(p, vs[i])
    requires IsZero(p, Dot(vs, s)) && IsZero(p, Dot(vs, u))
    ensures s[i] == u[i]
  {
    hide IsZero, Dot;
    DotOneChanged(vs, s, u, i);
    ScalarUnique(p, Dot(vs, s) - s[i] * vs[i], vs[i], s[i], u[i]);
  }
}
