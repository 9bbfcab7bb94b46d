/**
 * The FedAvg server (`FedAvgServerHandler`): client sampling, the stop test, and the round
 * state machine driven by `load`, which buffers uplink packages and aggregates them once
 * the per-round quota is reached.
 */
module Server {
  import opened Wrappers
  import opened Sums
  import opened Aggregation
  import opened Packages

  // ---------------------------------------------------------------------------------------
  // Global update: aggregate a buffer of uplink packages
  // ---------------------------------------------------------------------------------------

  /** `[ele.model_parameters for ele in buffer]` */
  function ParametersOf(buffer: seq<FedAvgUplinkPackage>): (ps: seq<seq<real>>)
    ensures |ps| == |buffer|
    ensures forall i :: 0 <= i < |buffer| ==> ps[i] == buffer[i].modelParameters
  {
    seq(|buffer|, i requires 0 <= i < |buffer| => buffer[i].modelParameters)
  }

  /** `[ele.data_size for ele in buffer]` */
  function DataSizesOf(buffer: seq<FedAvgUplinkPackage>): (ws: seq<nat>)
    ensures |ws| == |buffer|
    ensures forall i :: 0 <= i < |buffer| ==> ws[i] == buffer[i].dataSize
  {
    seq(|buffer|, i requires 0 <= i < |buffer| => buffer[i].dataSize)
  }

  /** The (parameters, weight) pair one package contributes to the aggregate. */
  function Entry(p: FedAvgUplinkPackage): (seq<real>, nat)
  {
    (p.modelParameters, p.dataSize)
  }

  /** Element j of a package's parameters, scaled by its sample count. */
  function PackageTerm(j: nat): FedAvgUplinkPackage -> real
  {
    (p: FedAvgUplinkPackage) => Coord(p.modelParameters, j) * (p.dataSize as real)
  }

  /** The sample counts of a buffer do not all vanish, so they can be normalised. */
  predicate Aggregatable(buffer: seq<FedAvgUplinkPackage>)
  {
    Sum(DataSizesOf(buffer)) > 0
  }

  /** Every package's parameter vector has the length of the first one. */
  predicate Uniform(buffer: seq<FedAvgUplinkPackage>)
  {
    forall i :: 0 <= i < |buffer| ==> |buffer[i].modelParameters| == |buffer[0].modelParameters|
  }

  lemma ZipOfBuffer(buffer: seq<FedAvgUplinkPackage>)
    ensures Zip(ParametersOf(buffer), DataSizesOf(buffer)) == Map(buffer, Entry)
  {
    var z, m := Zip(ParametersOf(buffer), DataSizesOf(buffer)), Map(buffer, Entry);
    assert |z| == |m|;
    forall i | 0 <= i < |z|
      ensures z[i] == m[i]
    {
      assert z[i] == (buffer[i].modelParameters, buffer[i].dataSize);
    }
  }

  lemma {:induction false} WeightedSumOfBuffer(buffer: seq<FedAvgUplinkPackage>, j: nat)
    ensures WeightedSum(ParametersOf(buffer), DataSizesOf(buffer), j) == SumOf(buffer, PackageTerm(j))
  {
    if |buffer| > 0 {
      var ps, ws := ParametersOf(buffer), DataSizesOf(buffer);
      ZipTail(ps, ws);
      assert ps[1..] == ParametersOf(buffer[1..]);
      assert ws[1..] == DataSizesOf(buffer[1..]);
      WeightedSumOfBuffer(buffer[1..], j);
    }
  }

  /**
   * The computation of `global_update`: the aggregate of exactly the buffer's parameters,
   * weighted by the buffer's sample counts in buffer order. Element j is
   * sum_k buffer[k].params[j] * buffer[k].data_size / sum_k buffer[k].data_size; it fails
   * exactly when the buffered vectors differ in length.
   */
  function BufferAggregate(buffer: seq<FedAvgUplinkPackage>): (r: Result<seq<real>, AggregateError>)
    requires Aggregatable(buffer)
    ensures r.Success? <==> Uniform(buffer)
    ensures r.Success? ==> |buffer| > 0 && |r.value| == |buffer[0].modelParameters|
    ensures r.Success? ==> forall j :: 0 <= j < |r.value| ==>
      r.value[j] == SumOf(buffer, PackageTerm(j)) / Sum(DataSizesOf(buffer)) as real
  {
    var ps, ws := ParametersOf(buffer), DataSizesOf(buffer);
    var r := Aggregate(ps, ws);
    assert forall i :: 0 <= i < |buffer| ==> ps[i] == buffer[i].modelParameters;
    assert SameShape(ps) <==> Uniform(buffer);
    BufferFormula(buffer, r);
    r
  }

  lemma BufferFormula(buffer: seq<FedAvgUplinkPackage>, r: Result<seq<real>, AggregateError>)
    requires Aggregatable(buffer) && r == Aggregate(ParametersOf(buffer), DataSizesOf(buffer))
    ensures r.Success? ==> forall j :: 0 <= j < |r.value| ==>
      r.value[j] == SumOf(buffer, PackageTerm(j)) / Sum(DataSizesOf(buffer)) as real
  {
    if r.Success? {
      forall j | 0 <= j < |r.value|
        ensures r.value[j] == SumOf(buffer, PackageTerm(j)) / Sum(DataSizesOf(buffer)) as real
      {
        WeightedSumOfBuffer(buffer, j);
      }
    }
  }

  /**
   * The order in which packages arrive does not matter: two buffers holding the same
   * packages aggregate to the same result.
   */
  lemma BufferOrderIrrelevant(b1: seq<FedAvgUplinkPackage>, b2: seq<FedAvgUplinkPackage>)
    requires Aggregatable(b1) && multiset(b1) == multiset(b2)
    ensures Sum(DataSizesOf(b2)) == Sum(DataSizesOf(b1))
    ensures BufferAggregate(b2) == BufferAggregate(b1)
  {
    ZipOfBuffer(b1);
    ZipOfBuffer(b2);
    MapPermutation(b1, b2, Entry);
    AggregatePermutation(ParametersOf(b1), DataSizesOf(b1), ParametersOf(b2), DataSizesOf(b2));
  }

  // ---------------------------------------------------------------------------------------
  // The round state machine
  // ---------------------------------------------------------------------------------------

  /** The server's mutable state: the round counter, the buffer, and the global parameters. */
  datatype RoundState = RoundState(round: nat, buffer: seq<FedAvgUplinkPackage>, parameters: seq<real>)

  /** What a call to `load` does: it returns whether a global update ran, or it raises. */
  datatype LoadOutcome =
    | Loaded(state: RoundState, updated: bool)
    | Raised(state: RoundState, error: AggregateError)

  /**
   * One call to `load`: append the payload; if the buffer then holds exactly `quota`
   * packages, aggregate them, advance the round and empty the buffer. The payload is
   * appended before aggregating, so when the aggregation raises it stays buffered.
   */
  function LoadStep(s: RoundState, quota: int, payload: FedAvgUplinkPackage): LoadOutcome
    requires |s.buffer| + 1 == quota ==> Aggregatable(s.buffer + [payload])
  {
    var buffer := s.buffer + [payload];
    if |buffer| == quota then
      match BufferAggregate(buffer)
      case Success(p) => Loaded(RoundState(s.round + 1, [], p), true)
      case Failure(e) => Raised(RoundState(s.round, buffer, s.parameters), e)
    else
      Loaded(RoundState(s.round, buffer, s.parameters), false)
  }

  /** Every package reports a positive sample count. */
  predicate PositiveSizes(ps: seq<FedAvgUplinkPackage>)
  {
    forall i :: 0 <= i < |ps| ==> ps[i].dataSize > 0
  }

  lemma LastPackageCounts(buffer: seq<FedAvgUplinkPackage>, p: FedAvgUplinkPackage)
    ensures Sum(DataSizesOf(buffer + [p])) >= p.dataSize
  {
    assert DataSizesOf(buffer + [p]) == DataSizesOf(buffer) + [p.dataSize];
    SumAppend(DataSizesOf(buffer), p.dataSize);
  }

  /** Calls `load` with each package of `ps` in turn, stopping at the first that raises. */
  function Run(s: RoundState, quota: int, ps: seq<FedAvgUplinkPackage>): LoadOutcome
    requires PositiveSizes(ps)
    decreases |ps|
  {
    if |ps| == 0 then Loaded(s, false)
    else
      var last := ps[|ps| - 1];
      match Run(s, quota, ps[..|ps| - 1])
      case Raised(t, e) => Raised(t, e)
      case Loaded(t, _) =>
        LastPackageCounts(t.buffer, last);
        LoadStep(t, quota, last)
  }

  /**
   * A single `load` keeps the buffer below a positive quota: either it stays below after
   * the append, or it was filled and has been emptied. Past the quota nothing ever fires.
   */
  lemma LoadKeepsBufferBelowQuota(s: RoundState, quota: int, payload: FedAvgUplinkPackage)
    requires |s.buffer| + 1 == quota ==> Aggregatable(s.buffer + [payload])
    ensures var o := LoadStep(s, quota, payload);
      (0 < quota && |s.buffer| < quota && o.Loaded? ==> |o.state.buffer| < quota)
      && (|s.buffer| >= quota ==> o == Loaded(RoundState(s.round, s.buffer + [payload], s.parameters), false))
  {
  }

  /**
   * The state reached after feeding `ps` to an empty buffer, as described by counting:
   * |ps| == quota * (rounds advanced) + |buffer|, the buffer holds the last |buffer|
   * packages and is below the quota, and the global parameters are the aggregate of the
   * last full batch of `quota` packages (or unchanged if no round completed).
   */
  ghost predicate Counted(s: RoundState, quota: int, ps: seq<FedAvgUplinkPackage>, t: RoundState)
  {
    && 0 < quota
    && t.round >= s.round
    && quota * (t.round - s.round) + |t.buffer| == |ps|
    && |t.buffer| < quota
    && t.buffer == ps[|ps| - |t.buffer|..]
    && (t.round == s.round ==> t.parameters == s.parameters)
    && (t.round > s.round ==> |t.buffer| + quota <= |ps|)
    && (t.round > s.round ==>
          var batch := ps[|ps| - |t.buffer| - quota .. |ps| - |t.buffer|];
          Aggregatable(batch) && BufferAggregate(batch) == Success(t.parameters))
  }

  lemma RunUnfold(s: RoundState, quota: int, ps: seq<FedAvgUplinkPackage>)
    requires PositiveSizes(ps) && |ps| > 0
    ensures PositiveSizes(ps[..|ps| - 1])
    ensures Run(s, quota, ps[..|ps| - 1]).Loaded? ==>
      var t := Run(s, quota, ps[..|ps| - 1]).state;
      && Aggregatable(t.buffer + [ps[|ps| - 1]])
      && Run(s, quota, ps) == LoadStep(t, quota, ps[|ps| - 1])
  {
    assert PositiveSizes(ps[..|ps| - 1]);
    if Run(s, quota, ps[..|ps| - 1]).Loaded? {
      LastPackageCounts(Run(s, quota, ps[..|ps| - 1]).state.buffer, ps[|ps| - 1]);
    }
  }

  lemma FireArithmetic(n: int, quota: int, k: int, b: int)
    requires quota * k + b == n - 1 && b + 1 == quota && 0 <= b <= n - 1
    ensures quota * (k + 1) == n && quota <= n
  {
    assert quota * (k + 1) == quota * k + quota;
  }

  lemma FullBatch(ps: seq<FedAvgUplinkPackage>, buffer: seq<FedAvgUplinkPackage>)
    requires |ps| > 0 && |buffer| < |ps| && PositiveSizes(ps) && Uniform(ps)
    requires buffer == ps[..|ps| - 1][|ps| - 1 - |buffer|..]
    ensures buffer + [ps[|ps| - 1]] == ps[|ps| - |buffer| - 1..]
    ensures Aggregatable(buffer + [ps[|ps| - 1]]) && Uniform(buffer + [ps[|ps| - 1]])
  {
    var n, last := |ps|, ps[|ps| - 1];
    LastPackageCounts(buffer, last);
    var full := buffer + [last];
    assert full == ps[n - |full|..];
    forall i | 0 <= i < |full|
      ensures |full[i].modelParameters| == |ps[0].modelParameters|
    {
      assert full[i] == ps[n - |full| + i];
    }
  }

  /** The load that fills the buffer completes a batch. */
  lemma CountedFire(s: RoundState, quota: int, ps: seq<FedAvgUplinkPackage>, t0: RoundState)
    requires |ps| > 0 && PositiveSizes(ps) && Uniform(ps)
    requires Counted(s, quota, ps[..|ps| - 1], t0) && |t0.buffer| + 1 == quota
    ensures Aggregatable(t0.buffer + [ps[|ps| - 1]])
    ensures LoadStep(t0, quota, ps[|ps| - 1]).Loaded?
    ensures Counted(s, quota, ps, LoadStep(t0, quota, ps[|ps| - 1]).state)
  {
    var n, last := |ps|, ps[|ps| - 1];
    FullBatch(ps, t0.buffer);
    var buffer := t0.buffer + [last];
    var agg := BufferAggregate(buffer);
    var t := RoundState(t0.round + 1, [], agg.value);
    assert LoadStep(t0, quota, last) == Loaded(t, true);
    FireArithmetic(n, quota, t0.round - s.round, |t0.buffer|);
    assert ps[n - 0 - quota .. n - 0] == buffer;
  }

  /** A load that leaves the buffer below the quota only appends. */
  lemma CountedAppend(s: RoundState, quota: int, ps: seq<FedAvgUplinkPackage>, t0: RoundState)
    requires |ps| > 0
    requires Counted(s, quota, ps[..|ps| - 1], t0) && |t0.buffer| + 1 != quota
    ensures LoadStep(t0, quota, ps[|ps| - 1]).Loaded?
    ensures Counted(s, quota, ps, LoadStep(t0, quota, ps[|ps| - 1]).state)
  {
    var n, last := |ps|, ps[|ps| - 1];
    var buffer := t0.buffer + [last];
    assert buffer == ps[n - |buffer|..];
    var t := LoadStep(t0, quota, last).state;
    assert t == RoundState(t0.round, buffer, t0.parameters);
    if t.round > s.round {
      var lo, hi := n - |buffer| - quota, n - |buffer|;
      assert ps[lo..hi] == ps[..n - 1][lo..hi];
    }
  }

  /**
   * Feeding n packages with positive sample counts and equal-length parameters to a server
   * whose buffer is empty fires exactly one global update per `quota` packages: the final
   * state is the one `Counted` describes.
   */
  lemma {:induction false} RunCountsRounds(s: RoundState, quota: int, ps: seq<FedAvgUplinkPackage>)
    requires 0 < quota && s.buffer == []
    requires PositiveSizes(ps) && Uniform(ps)
    ensures Run(s, quota, ps).Loaded?
    ensures Counted(s, quota, ps, Run(s, quota, ps).state)
    decreases |ps|
  {
    var n := |ps|;
    if n > 0 {
      var prefix := ps[..n - 1];
      RunUnfold(s, quota, ps);
      assert Uniform(prefix);
      RunCountsRounds(s, quota, prefix);
      var t0 := Run(s, quota, prefix).state;
      if |t0.buffer| + 1 == quota {
        CountedFire(s, quota, ps, t0);
      } else {
        CountedAppend(s, quota, ps, t0);
      }
    }
  }

  /**
   * `if_stop` never switches back: `load` only ever raises the round, by at most one per
   * call, so once round >= global_round it stays so.
   */
  lemma {:induction false} IfStopStaysTrue(s: RoundState, quota: int, globalRound: int, ps: seq<FedAvgUplinkPackage>)
    requires PositiveSizes(ps)
    ensures s.round <= Run(s, quota, ps).state.round <= s.round + |ps|
    ensures s.round >= globalRound ==> Run(s, quota, ps).state.round >= globalRound
    decreases |ps|
  {
    if |ps| > 0 {
      var prefix := ps[..|ps| - 1];
      assert PositiveSizes(prefix);
      IfStopStaysTrue(s, quota, globalRound, prefix);
    }
  }

  // ---------------------------------------------------------------------------------------
  // Sampling
  // ---------------------------------------------------------------------------------------

  /** `random.sample` raises when asked for more items than the population holds, or fewer than 0. */
  datatype SampleError = SampleLargerThanPopulationOrNegative

  /** A possible outcome of `random.sample(range(population), k)`: k distinct ids in range. */
  predicate IsDraw(draw: set<int>, population: nat, k: nat)
  {
    |draw| == k && forall c :: c in draw ==> 0 <= c < population
  }

  /** The members of `draw` in [lo, hi). */
  function Window(draw: set<int>, lo: int, hi: int): set<int>
  {
    set c | c in draw && lo <= c < hi
  }

  /** The members of `draw` in [lo, hi), listed in ascending order. */
  function Ascending(draw: set<int>, lo: int, hi: int): seq<int>
    decreases hi - lo
  {
    if lo >= hi then [] else (if lo in draw then [lo] else []) + Ascending(draw, lo + 1, hi)
  }

  lemma {:induction false} AscendingLists(draw: set<int>, lo: int, hi: int)
    ensures var r := Ascending(draw, lo, hi);
      && (forall i :: 0 <= i < |r| ==> lo <= r[i] < hi && r[i] in draw)
      && (forall c :: c in Window(draw, lo, hi) ==> c in r)
      && (forall i, k :: 0 <= i < k < |r| ==> r[i] < r[k])
      && |r| == |Window(draw, lo, hi)|
    decreases hi - lo
  {
    if lo < hi {
      AscendingLists(draw, lo + 1, hi);
      var head: set<int> := if lo in draw then {lo} else {};
      assert Window(draw, lo, hi) == head + Window(draw, lo + 1, hi);
      assert head !! Window(draw, lo + 1, hi);
    } else {
      assert Window(draw, lo, hi) == {};
    }
  }

  /** `int(x)` on a float: truncation toward zero. */
  function Truncate(x: real): (r: int)
    ensures 0.0 <= x ==> r as real <= x < r as real + 1.0
    ensures x < 0.0 ==> r as real - 1.0 < x <= r as real
  {
    if x >= 0.0 then x.Floor else -((-x).Floor)
  }

  // ---------------------------------------------------------------------------------------
  // The server object
  // ---------------------------------------------------------------------------------------

  class FedAvgServerHandler {
    const globalRound: int
    const numClients: nat
    const sampleRatio: real
    const numClientsPerRound: int
    /** The global model, as its serialised parameter vector. */
    var parameters: seq<real>
    var clientBufferCache: seq<FedAvgUplinkPackage>
    var round: nat

    /** Between calls the buffer stays below a positive quota. */
    ghost predicate Valid()
      reads this
    {
      0 < numClientsPerRound ==> |clientBufferCache| < numClientsPerRound
    }

    function State(): RoundState
      reads this
    {
      RoundState(round, clientBufferCache, parameters)
    }

    constructor (initialParameters: seq<real>, globalRound: int, numClients: nat, sampleRatio: real)
      ensures this.globalRound == globalRound && this.numClients == numClients && this.sampleRatio == sampleRatio
      ensures numClientsPerRound == Truncate(numClients as real * sampleRatio)
      ensures parameters == initialParameters && clientBufferCache == [] && round == 0
      ensures Valid()
      ensures !IfStop() <==> globalRound > 0
    {
      this.globalRound := globalRound;
      this.numClients := numClients;
      this.sampleRatio := sampleRatio;
      numClientsPerRound := Truncate(numClients as real * sampleRatio);
      parameters := initialParameters;
      clientBufferCache := [];
      round := 0;
    }

    /**
     * `sample_clients`: the sorted draw. Given the ids `random.sample` picked, the result
     * lists exactly those ids, `num_clients_per_round` of them, each in [0, num_clients),
     * strictly ascending (so pairwise distinct); `random.sample` raises when the quota is
     * negative or exceeds the population.
     */
    function SampleClients(draw: set<int>): (r: Result<seq<int>, SampleError>)
      requires 0 <= numClientsPerRound <= numClients ==> IsDraw(draw, numClients, numClientsPerRound)
      ensures r.Failure? <==> numClientsPerRound < 0 || numClientsPerRound > numClients
      ensures r.Success? ==> |r.value| == numClientsPerRound
      ensures r.Success? ==> forall i :: 0 <= i < |r.value| ==> 0 <= r.value[i] < numClients
      ensures r.Success? ==> forall i, k :: 0 <= i < k < |r.value| ==> r.value[i] < r.value[k]
      ensures r.Success? ==> forall c :: c in draw <==> c in r.value
    {
      if numClientsPerRound < 0 || numClientsPerRound > numClients then
        Failure(SampleLargerThanPopulationOrNegative)
      else
        AscendingLists(draw, 0, numClients);
        assert Window(draw, 0, numClients) == draw;
        Success(Ascending(draw, 0, numClients))
    }

    function IfStop(): bool
      reads this
    {
      round >= globalRound
    }

    function DownlinkPackage(): FedAvgDownlinkPackage
      reads this
    {
      FedAvgDownlinkPackage(parameters)
    }

    /** `global_update`: replace the global parameters by the aggregate of `buffer`. */
    method GlobalUpdate(buffer: seq<FedAvgUplinkPackage>) returns (o: Outcome<AggregateError>)
      requires Aggregatable(buffer)
      modifies this`parameters
      ensures o.Pass? <==> BufferAggregate(buffer).Success?
      ensures parameters == if o.Pass? then BufferAggregate(buffer).value else old(parameters)
    {
      var aggregated := BufferAggregate(buffer);
      if aggregated.Failure? {
        return Fail(aggregated.error);
      }
      parameters := aggregated.value;
      return Pass;
    }

    /**
     * `load`: buffer the payload; report whether it completed the round (aggregating,
     * advancing the round and emptying the buffer), or raise what the aggregation raised.
     */
    method Load(payload: FedAvgUplinkPackage) returns (r: Result<bool, AggregateError>)
      requires |clientBufferCache| + 1 == numClientsPerRound ==> Aggregatable(clientBufferCache + [payload])
      modifies this
      ensures LoadStep(old(State()), numClientsPerRound, payload)
        == if r.Success? then Loaded(State(), r.value) else Raised(State(), r.error)
      ensures r.Success? && r.value <==> |old(clientBufferCache)| + 1 == numClientsPerRound && r.Success?
      ensures r.Success? && r.value ==>
        && round == old(round) + 1 && clientBufferCache == []
        && Success(DownlinkPackage().modelParameters) == BufferAggregate(old(clientBufferCache) + [payload])
      ensures !(r.Success? && r.value) ==>
        && round == old(round) && clientBufferCache == old(clientBufferCache) + [payload]
        && parameters == old(parameters)
      ensures old(Valid()) && r.Success? ==> Valid()
      ensures old(IfStop()) ==> IfStop()
    {
      clientBufferCache := clientBufferCache + [payload];
      if |clientBufferCache| == numClientsPerRound {
        var o := GlobalUpdate(clientBufferCache);
        if o.Fail? {
          return Failure(o.error);
        }
        round := round + 1;
        clientBufferCache := [];
        return Success(true);
      }
      return Success(false);
    }
  }

  /** With ten clients and a ratio of 0.3 the quota is 3: the third `load` completes round 0. */
  method ThreeClientRound(p1: FedAvgUplinkPackage, p2: FedAvgUplinkPackage, p3: FedAvgUplinkPackage)
    requires p1.dataSize > 0
    requires |p2.modelParameters| == |p1.modelParameters| == |p3.modelParameters|
  {
    var server := new FedAvgServerHandler([0.0, 0.0], 5, 10, 0.3);
    assert server.numClientsPerRound == 3;
    var r := server.Load(p1);
    assert r == Success(false) && server.round == 0;
    r := server.Load(p2);
    assert r == Success(false) && server.round == 0 && server.clientBufferCache == [p1, p2];
    var full := [p1, p2, p3];
    assert Sum(DataSizesOf(full)) > 0 by {
      LastPackageCounts([p1, p2], p3);
      assert [p1, p2] + [p3] == full;
    }
    assert Uniform(full);
    assert [p1, p2] + [p3] == full;
    r := server.Load(p3);
    assert r == Success(true) && server.round == 1 && server.clientBufferCache == [];
    assert Success(server.DownlinkPackage().modelParameters) == BufferAggregate(full);
  }
}
