/**
 * FedAvg weighted averaging (`FedAvgServerHandler.aggregate`), over exact reals.
 * The parameter vectors are stacked column by column, the integer sample counts are
 * normalised by their total, and the result is the column-wise weighted sum.
 */
module Aggregation {
  import opened Wrappers
  import opened Sums

  /** `torch.stack` refuses vectors of different lengths. */
  datatype AggregateError = ShapeMismatch

  /** All parameter vectors have the length of the first one. */
  predicate SameShape(ps: seq<seq<real>>)
  {
    forall i :: 0 <= i < |ps| ==> |ps[i]| == |ps[0]|
  }

  /** Element j of a vector, or 0 past its end (only used on same-shape stacks). */
  function Coord(v: seq<real>, j: nat): real
  {
    if j < |v| then v[j] else 0.0
  }

  /** The term one client contributes to element j: its parameter times its normalised weight. */
  function ColumnTerm(j: nat): ((seq<real>, real)) -> real
  {
    (e: (seq<real>, real)) => Coord(e.0, j) * e.1
  }

  /** The term one client contributes to element j of the unnormalised weighted sum. */
  function RawTerm(j: nat): ((seq<real>, nat)) -> real
  {
    (e: (seq<real>, nat)) => Coord(e.0, j) * (e.1 as real)
  }

  /** The weight of one (parameters, weight) pair, as a real. */
  function WeightOf(e: (seq<real>, nat)): real
  {
    e.1 as real
  }

  /** The identity on reals, to sum a sequence of reals with SumOf. */
  function Value(x: real): real
  {
    x
  }

  /** Sum over i of ps[i][j] * ws[i]: element j of the weighted sum before normalisation. */
  function WeightedSum(ps: seq<seq<real>>, ws: seq<nat>, j: nat): real
    requires |ps| == |ws|
  {
    SumOf(Zip(ps, ws), RawTerm(j))
  }

  /** Every weight divided by d. */
  function Divided(ws: seq<nat>, d: real): seq<real>
    requires d > 0.0
  {
    seq(|ws|, i requires 0 <= i < |ws| => ws[i] as real / d)
  }

  /** `weights / torch.sum(weights)`. */
  function Normalize(ws: seq<nat>): (nw: seq<real>)
    requires Sum(ws) > 0
    ensures |nw| == |ws|
  {
    Divided(ws, Sum(ws) as real)
  }

  lemma {:induction false} SumOfDivided(ws: seq<nat>, d: real)
    requires d > 0.0
    ensures SumOf(Divided(ws, d), Value) == (Sum(ws) as real) / d
  {
    if |ws| > 0 {
      assert Divided(ws, d)[1..] == Divided(ws[1..], d);
      SumOfDivided(ws[1..], d);
    }
  }

  /** The normalised weights are fractions of the total and add up to exactly 1. */
  lemma NormalizedWeightsSumToOne(ws: seq<nat>)
    requires Sum(ws) > 0
    ensures forall i :: 0 <= i < |ws| ==> Normalize(ws)[i] == ws[i] as real / Sum(ws) as real
    ensures SumOf(Normalize(ws), Value) == 1.0
  {
    var d := Sum(ws) as real;
    assert Normalize(ws) == Divided(ws, d);
    SumOfDivided(ws, d);
    assert d / d == 1.0;
  }

  /** Summing normalised terms is the same as dividing the raw weighted sum by d. */
  lemma {:induction false} ColumnOfDivided(ps: seq<seq<real>>, ws: seq<nat>, d: real, j: nat)
    requires |ps| == |ws| && d > 0.0
    ensures SumOf(Zip(ps, Divided(ws, d)), ColumnTerm(j)) == WeightedSum(ps, ws, j) / d
  {
    if |ps| > 0 {
      var nw := Divided(ws, d);
      ZipTail(ps, nw);
      ZipTail(ps, ws);
      assert nw[1..] == Divided(ws[1..], d);
      ColumnOfDivided(ps[1..], ws[1..], d, j);
      var x, w := Coord(ps[0], j), ws[0] as real;
      assert ColumnTerm(j)(Zip(ps, nw)[0]) == x * (w / d);
      assert RawTerm(j)(Zip(ps, ws)[0]) == x * w;
      assert x * (w / d) == (x * w) / d;
    }
  }

  /**
   * `aggregate(parameters_list, weights_list)`: stack, normalise the weights, sum the
   * weighted columns. Succeeds exactly when the vectors have one common length, and then
   * returns a vector of that length whose element j is sum_i ps[i][j] * ws[i] / sum_i ws[i].
   */
  function Aggregate(ps: seq<seq<real>>, ws: seq<nat>): (r: Result<seq<real>, AggregateError>)
    requires |ps| == |ws| && Sum(ws) > 0
    ensures r.Success? <==> SameShape(ps)
    ensures r.Success? ==> |ps| > 0 && |r.value| == |ps[0]|
    ensures r.Success? ==>
      forall j :: 0 <= j < |r.value| ==> r.value[j] == WeightedSum(ps, ws, j) / Sum(ws) as real
  {
    if !SameShape(ps) then Failure(ShapeMismatch)
    else
      var nw := Normalize(ws);
      var out := seq(|ps[0]|, j requires 0 <= j < |ps[0]| => SumOf(Zip(ps, nw), ColumnTerm(j)));
      AggregateFormula(ps, ws, out);
      Success(out)
  }

  lemma AggregateFormula(ps: seq<seq<real>>, ws: seq<nat>, out: seq<real>)
    requires |ps| == |ws| && Sum(ws) > 0 && |ps| > 0
    requires out == seq(|ps[0]|, j requires 0 <= j < |ps[0]| => SumOf(Zip(ps, Normalize(ws)), ColumnTerm(j)))
    ensures forall j :: 0 <= j < |out| ==> out[j] == WeightedSum(ps, ws, j) / Sum(ws) as real
  {
    forall j | 0 <= j < |out|
      ensures out[j] == WeightedSum(ps, ws, j) / Sum(ws) as real
    {
      ColumnOfDivided(ps, ws, Sum(ws) as real, j);
    }
  }

  lemma {:induction false} SumOfWeights(ps: seq<seq<real>>, ws: seq<nat>)
    requires |ps| == |ws|
    ensures SumOf(Zip(ps, ws), WeightOf) == Sum(ws) as real
  {
    if |ps| > 0 {
      ZipTail(ps, ws);
      SumOfWeights(ps[1..], ws[1..]);
    }
  }

  /** Reordering the clients keeps every vector's length. */
  lemma ShapePreserved(ps: seq<seq<real>>, ws: seq<nat>, qs: seq<seq<real>>, vs: seq<nat>)
    requires |ps| == |ws| && |qs| == |vs| && |ps| > 0
    requires multiset(Zip(ps, ws)) == multiset(Zip(qs, vs))
    requires SameShape(ps)
    ensures |qs| > 0 && SameShape(qs) && |qs[0]| == |ps[0]|
  {
    assert |Zip(qs, vs)| == |multiset(Zip(qs, vs))| == |multiset(Zip(ps, ws))| == |ps|;
    forall i | 0 <= i < |qs|
      ensures |qs[i]| == |ps[0]|
    {
      assert Zip(qs, vs)[i] in multiset(Zip(ps, ws));
      var k :| 0 <= k < |ps| && Zip(ps, ws)[k] == Zip(qs, vs)[i];
    }
  }

  /** Same (parameters, weight) pairs: same total weight. */
  lemma WeightsPermutation(ps: seq<seq<real>>, ws: seq<nat>, qs: seq<seq<real>>, vs: seq<nat>)
    requires |ps| == |ws| && |qs| == |vs|
    requires multiset(Zip(ps, ws)) == multiset(Zip(qs, vs))
    ensures Sum(vs) == Sum(ws) && |qs| == |ps|
  {
    SumOfWeights(ps, ws);
    SumOfWeights(qs, vs);
    SumOfPermutation(Zip(ps, ws), Zip(qs, vs), WeightOf);
    assert |Zip(qs, vs)| == |multiset(Zip(qs, vs))| == |multiset(Zip(ps, ws))| == |Zip(ps, ws)|;
  }

  /** Same (parameters, weight) pairs: same weighted sum in every column. */
  lemma WeightedSumPermutation(ps: seq<seq<real>>, ws: seq<nat>, qs: seq<seq<real>>, vs: seq<nat>)
    requires |ps| == |ws| && |qs| == |vs|
    requires multiset(Zip(ps, ws)) == multiset(Zip(qs, vs))
    ensures forall j: nat :: WeightedSum(qs, vs, j) == WeightedSum(ps, ws, j)
  {
    forall j: nat
      ensures WeightedSum(qs, vs, j) == WeightedSum(ps, ws, j)
    {
      SumOfPermutation(Zip(ps, ws), Zip(qs, vs), RawTerm(j));
    }
  }

  /**
   * Permuting the parameter list and the weight list by one same permutation (so that the
   * (parameters, weight) pairs are the same multiset) changes neither the total weight nor
   * the aggregate.
   */
  lemma AggregatePermutation(ps: seq<seq<real>>, ws: seq<nat>, qs: seq<seq<real>>, vs: seq<nat>)
    requires |ps| == |ws| && |qs| == |vs| && Sum(ws) > 0
    requires multiset(Zip(ps, ws)) == multiset(Zip(qs, vs))
    ensures Sum(vs) == Sum(ws)
    ensures Aggregate(qs, vs) == Aggregate(ps, ws)
  {
    WeightsPermutation(ps, ws, qs, vs);
    assert |ps| > 0;
    if SameShape(ps) {
      ShapePreserved(ps, ws, qs, vs);
      WeightedSumPermutation(ps, ws, qs, vs);
      var r, t := Aggregate(ps, ws), Aggregate(qs, vs);
      assert r.Success? && t.Success?;
      assert |r.value| == |t.value|;
      forall j | 0 <= j < |r.value|
        ensures r.value[j] == t.value[j]
      {
        assert WeightedSum(qs, vs, j) == WeightedSum(ps, ws, j);
      }
      assert r.value == t.value;
    } else {
      if SameShape(qs) {
        ShapePreserved(qs, vs, ps, ws);
        assert false;
      }
    }
  }
}
