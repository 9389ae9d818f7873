/** Batched equations refine their trees: built from the same draws, they have the same
    value in the field. */
module Refinement {
  import opened PrimeField
  import opened MultipairingEquations
  import opened Batching

  // ---- Equations that are not batched ----

  function Leaves(values: seq<int>): (ts: seq<Tree>)
    ensures |ts| == |values|
  {
    seq(|values|, i requires 0 <= i < |values| => Leaf(values[i]))
  }

  lemma {:induction false} LeavesDraw(values: seq<int>)
    ensures DrawsOfAll(Leaves(values)) == 0
    ensures LayersOfAll(Leaves(values)) == 0
  {
    if values != [] {
      LeavesDraw(values[1..]);
      assert Leaves(values)[1..] == Leaves(values[1..]);
    }
  }

  lemma {:induction false} LeavesEval(values: seq<int>)
    requires DrawsOfAll(Leaves(values)) == 0
    ensures EvalAll(Leaves(values), []) == values
  {
    if values != [] {
      LeavesDraw(values[1..]);
      assert Leaves(values)[1..] == Leaves(values[1..]);
      LeavesEval(values[1..]);
    }
  }

  lemma LeavesZero(p: Order, values: seq<int>)
    ensures AllZero(p, Compacted(Leaves(values))) <==> forall i | 0 <= i < |values| :: IsZero(p, values[i])
  {
    hide IsZero;
    if AllZero(p, Compacted(Leaves(values))) {
      forall i | 0 <= i < |values| ensures IsZero(p, values[i]) {
        assert Leaves(values)[i] in Leaves(values);
        assert AllZero(p, Leaves(values)[i]);
      }
    }
  }


  lemma LeavesTree(values: seq<int>, tape: seq<nat>)
    requires |tape| == |values|
    ensures Draws(Compacted(Leaves(values))) == |values|
    ensures Layers(Compacted(Leaves(values))) == 1
    ensures Eval(Compacted(Leaves(values)), tape) == Dot(values, tape)
  {
    hide Dot;
    LeavesDraw(values);
    LeavesEval(values);
    CompactedEval(Leaves(values), tape);
    assert PartDraws(Leaves(values), tape) == [] && ScalarDraws(Leaves(values), tape) == tape;
  }

  // ---- combine ----

  lemma CombineRefines(p: Order, sok: Equation, shared: Equation, values: seq<int>, tape: seq<nat>)
    requires Balanced(sok) && Balanced(shared) && |tape| == |values| + 1
    requires Draws(Combined(Leaf(Value(sok)), Compacted(Leaves(values)))) == |tape|
    requires Congruent(p, Value(shared), Dot(values, tape[..|values|]))
    ensures Congruent(p, Value(Combine(p, sok, shared, tape[|values|])),
                         Eval(Combined(Leaf(Value(sok)), Compacted(Leaves(values))), tape))
  {
    hide Congruent, Value, Dot, Combine, Eval, Draws, Accumulate;
    var s := tape[|values|];
    CombineValue(p, sok, shared, s);
    TreeEval(Value(sok), values, tape);
    CongruentSelf(p, Value(sok));
    AccumulateCongruent(p, Value(sok), Value(sok), s, Value(shared), Dot(values, tape[..|values|]));
    CongruentChain(p, Value(Combine(p, sok, shared, s)), Accumulate(Value(sok), s, Value(shared)),
      Accumulate(Value(sok), s, Dot(values, tape[..|values|])));
  }

  lemma TreeEval(first: int, values: seq<int>, tape: seq<nat>)
    requires |tape| == |values| + 1
    requires Draws(Combined(Leaf(first), Compacted(Leaves(values)))) == |tape|
    ensures Eval(Combined(Leaf(first), Compacted(Leaves(values))), tape)
         == Accumulate(first, tape[|values|], Dot(values, tape[..|values|]))
  {
    hide Dot, Accumulate;
    var n := |values|;
    LeavesDraw(values);
    LeavesEval(values);
    CombinedEval(Leaf(first), Compacted(Leaves(values)), tape);
    var right := RightDraws(Leaf(first), Compacted(Leaves(values)), tape);
    assert right == tape[..n];
    CompactedEval(Leaves(values), right);
    assert PartDraws(Leaves(values), right) == [] && ScalarDraws(Leaves(values), right) == right;
  }

  // ---- compact ----

  /** The equations have, one by one, the values of the trees. */
  ghost predicate Refines(p: Order, eqs: seq<Equation>, ts: seq<Tree>, tape: seq<nat>) {
    && |eqs| == |ts|
    && |tape| == DrawsOfAll(ts)
    && (forall eq | eq in eqs :: Balanced(eq))
    && forall i | 0 <= i < |eqs| :: Congruent(p, Value(eqs[i]), EvalAll(ts, tape)[i])
  }

  lemma RefinesNothing(p: Order)
    ensures Refines(p, [], [], [])
  {
  }

  lemma RefinesOne(p: Order, eq: Equation, t: Tree, tape: seq<nat>)
    requires Balanced(eq) && |tape| == Draws(t) && Congruent(p, Value(eq), Eval(t, tape))
    ensures Refines(p, [eq], [t], tape)
  {
    hide Congruent, Value, Eval, Draws;
    assert DrawsOfAll([t]) == Draws(t) by {
      assert [t][1..] == [];
    }
    assert tape[..Draws(t)] == tape;
    assert EvalAll([t], tape)[0] == Eval(t, tape);
  }

  lemma RefinesLeaves(p: Order, eqs: seq<Equation>)
    requires forall eq | eq in eqs :: Balanced(eq)
    ensures Refines(p, eqs, Leaves(Values(eqs)), [])
  {
    hide Congruent, Value;
    LeavesDraw(Values(eqs));
    LeavesEval(Values(eqs));
    forall i | 0 <= i < |eqs| ensures Congruent(p, Value(eqs[i]), EvalAll(Leaves(Values(eqs)), [])[i]) {
      CongruentSelf(p, Value(eqs[i]));
    }
  }

  lemma {:induction false} DrawsAppend(ts: seq<Tree>, us: seq<Tree>)
    ensures DrawsOfAll(ts + us) == DrawsOfAll(ts) + DrawsOfAll(us)
    ensures LayersOfAll(ts + us) == Max(LayersOfAll(ts), LayersOfAll(us))
  {
    hide Draws, Layers;
    if ts == [] {
      assert ts + us == us;
    } else {
      DrawsAppend(ts[1..], us);
      assert (ts + us)[1..] == ts[1..] + us;
    }
  }

  lemma {:induction false} EvalAppend(ts: seq<Tree>, us: seq<Tree>, tape: seq<nat>, tape': seq<nat>)
    requires |tape| == DrawsOfAll(ts) && |tape'| == DrawsOfAll(us)
    ensures DrawsOfAll(ts + us) == |tape + tape'|
    ensures EvalAll(ts + us, tape + tape') == EvalAll(ts, tape) + EvalAll(us, tape')
  {
    hide Draws, Eval, EvalAll;
    DrawsAppend(ts, us);
    if ts == [] {
      assert ts + us == us && tape + tape' == tape';
      EvalAllNone();
    } else {
      var d := Draws(ts[0]);
      EvalAppend(ts[1..], us, tape[d..], tape');
      assert (ts + us)[1..] == ts[1..] + us && (ts + us)[0] == ts[0];
      assert (tape + tape')[..d] == tape[..d] && (tape + tape')[d..] == tape[d..] + tape';
      EvalAllStep(ts + us, tape + tape');
      EvalAllStep(ts, tape);
    }
  }

  lemma EvalAllNone()
    ensures EvalAll([], []) == []
  {
  }

  lemma EvalAllStep(ts: seq<Tree>, tape: seq<nat>)
    requires ts != [] && |tape| == DrawsOfAll(ts)
    ensures EvalAll(ts, tape) == [Eval(ts[0], tape[..Draws(ts[0])])] + EvalAll(ts[1..], tape[Draws(ts[0])..])
  {
  }

  lemma RefinesAppend(p: Order, eqs: seq<Equation>, ts: seq<Tree>, tape: seq<nat>,
                      eqs': seq<Equation>, ts': seq<Tree>, tape': seq<nat>)
    requires Refines(p, eqs, ts, tape) && Refines(p, eqs', ts', tape')
    ensures Refines(p, eqs + eqs', ts + ts', tape + tape')
  {
    hide Congruent, Value, EvalAll, DrawsOfAll;
    DrawsAppend(ts, ts');
    EvalAppend(ts, ts', tape, tape');
  }

  /** Compacting equations that refine their trees refines the compacted tree. */
  lemma CompactRefines(p: Order, eqs: seq<Equation>, ts: seq<Tree>, tape: seq<nat>, scalars: seq<nat>)
    requires Refines(p, eqs, ts, tape) && |scalars| == |eqs|
    ensures Draws(Compacted(ts)) == |tape + scalars|
    ensures Congruent(p, Value(CompactWith(p, eqs, scalars)), Eval(Compacted(ts), tape + scalars))
  {
    hide Congruent, Value, Eval, EvalAll, DrawsOfAll, CompactWith, Dot;
    var all := tape + scalars;
    CompactValue(p, eqs, scalars);
    DotCongruent(p, Values(eqs), EvalAll(ts, tape), scalars);
    CompactedEval(ts, all);
    assert PartDraws(ts, all) == tape && ScalarDraws(ts, all) == scalars;
    CongruentChain(p, Value(CompactWith(p, eqs, scalars)), Dot(Values(eqs), scalars), Dot(EvalAll(ts, tape), scalars));
  }
}
