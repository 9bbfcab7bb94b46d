/**
 * The serial client trainer (`FedAvgSerialClientTrainer`): trains the sampled clients one
 * after another, in the order given, and buffers one uplink package per client until the
 * server drains them.
 */
module SerialTrainer {
  import opened Wrappers
  import opened Sums
  import opened Packages

  /** The metrics `local_process` attaches to a package: `{"loss": loss, "acc": acc}`. */
  function Metrics(loss: real, acc: real): map<string, real>
  {
    map["loss" := loss, "acc" := acc]
  }

  /** The samples `train` counts: each of `epochs` passes walks the whole loader. */
  function EpochSamples(epochs: int, batchSizes: seq<nat>): nat
  {
    if epochs > 0 then epochs * Sum(batchSizes) else 0
  }

  /** `evaluate` divides by the number of validation samples, so an empty loader raises. */
  datatype EvaluateError = ZeroDivision

  class FedAvgSerialClientTrainer {
    const numClients: int
    const epochs: int
    const batchSize: int
    const lr: real
    /**
     * The training loader of client cid for a batch size, represented by the sizes of the
     * batches it yields (the dataset's `get_dataloader("train", cid, batch_size)`).
     */
    const trainLoader: (int, int) -> seq<nat>
    /** The validation loader of client cid for a batch size, as the sizes of its batches. */
    const valLoader: (int, int) -> seq<nat>
    /**
     * The parameters that local SGD on client cid's training data reaches from the given
     * ones, when at least one optimizer step runs.
     */
    const localUpdate: (seq<real>, int) -> seq<real>
    /** (loss, accuracy) of the given parameters on client cid's non-empty validation data. */
    const evaluate: (seq<real>, int) -> (real, real)
    var cache: seq<FedAvgUplinkPackage>

    constructor (numClients: int, epochs: int, batchSize: int, lr: real,
                 trainLoader: (int, int) -> seq<nat>,
                 valLoader: (int, int) -> seq<nat>,
                 localUpdate: (seq<real>, int) -> seq<real>,
                 evaluate: (seq<real>, int) -> (real, real))
      ensures this.numClients == numClients && this.epochs == epochs
      ensures this.batchSize == batchSize && this.lr == lr
      ensures this.trainLoader == trainLoader && this.valLoader == valLoader
      ensures this.localUpdate == localUpdate && this.evaluate == evaluate
      ensures cache == []
    {
      this.numClients := numClients;
      this.epochs := epochs;
      this.batchSize := batchSize;
      this.lr := lr;
      this.trainLoader := trainLoader;
      this.valLoader := valLoader;
      this.localUpdate := localUpdate;
      this.evaluate := evaluate;
      cache := [];
    }

    /** Training on client cid runs at least one optimizer step. */
    predicate Steps(cid: int)
    {
      epochs > 0 && |trainLoader(cid, batchSize)| > 0
    }

    /** The parameters `train` returns: untouched when no optimizer step ran. */
    function Trained(parameters: seq<real>, cid: int): seq<real>
    {
      if Steps(cid) then localUpdate(parameters, cid) else parameters
    }

    /**
     * `train`: run local SGD from `parameters` on client cid's training loader and count
     * every sample of every batch of every epoch. When no batch is ever visited the
     * parameters come back unchanged.
     */
    method Train(parameters: seq<real>, cid: int) returns (pack: FedAvgUplinkPackage)
      ensures !Steps(cid) ==> pack.modelParameters == parameters
      ensures Steps(cid) ==> pack.modelParameters == localUpdate(parameters, cid)
      ensures pack.dataSize == (if epochs > 0 then epochs else 0) * Sum(trainLoader(cid, batchSize))
      ensures pack.metadata == None
    {
      var loader := trainLoader(cid, batchSize);
      var dataSize: nat := 0;
      var stepped := false;
      var e := 0;
      while e < epochs
        invariant 0 <= e <= if epochs > 0 then epochs else 0
        invariant dataSize == e * Sum(loader)
        invariant stepped <==> e > 0 && |loader| > 0
      {
        var b := 0;
        while b < |loader|
          invariant 0 <= b <= |loader|
          invariant dataSize == e * Sum(loader) + Sum(loader[..b])
          invariant stepped <==> (e > 0 && |loader| > 0) || b > 0
        {
          assert loader[..b + 1] == loader[..b] + [loader[b]];
          SumAppend(loader[..b], loader[b]);
          dataSize := dataSize + loader[b];
          stepped := true;
          b := b + 1;
        }
        assert loader[..|loader|] == loader;
        e := e + 1;
      }
      var trained := if stepped then localUpdate(parameters, cid) else parameters;
      pack := FedAvgUplinkPackage(trained, dataSize, None);
    }

    /** Client cid's validation loader yields at least one sample. */
    predicate Evaluable(cid: int)
    {
      Sum(valLoader(cid, batchSize)) > 0
    }

    /**
     * `evaluate`: walk client cid's validation loader, counting its samples, and average
     * loss and accuracy over them; with no samples the division raises.
     */
    method Evaluate(parameters: seq<real>, cid: int) returns (r: Result<(real, real), EvaluateError>)
      ensures r.Failure? <==> Sum(valLoader(cid, batchSize)) == 0
      ensures r.Success? ==> r.value == evaluate(parameters, cid)
    {
      var loader := valLoader(cid, batchSize);
      var totalSamples: nat := 0;
      var b := 0;
      while b < |loader|
        invariant 0 <= b <= |loader|
        invariant totalSamples == Sum(loader[..b])
      {
        assert loader[..b + 1] == loader[..b] + [loader[b]];
        SumAppend(loader[..b], loader[b]);
        totalSamples := totalSamples + loader[b];
        b := b + 1;
      }
      assert loader[..|loader|] == loader;
      if totalSamples == 0 {
        return Failure(ZeroDivision);
      }
      return Success(evaluate(parameters, cid));
    }

    /**
     * The package `local_process` produces for client cid: the trained parameters, the
     * counted samples, and the loss and accuracy of the trained parameters on the client's
     * validation data.
     */
    function ClientPackage(parameters: seq<real>, cid: int): (p: FedAvgUplinkPackage)
      requires Evaluable(cid)
      ensures p.modelParameters == (if Steps(cid) then localUpdate(parameters, cid) else parameters)
      ensures p.dataSize == EpochSamples(epochs, trainLoader(cid, batchSize))
      ensures p.metadata.Some? && p.metadata.value.Keys == {"loss", "acc"}
      ensures p.metadata.value["loss"] == evaluate(p.modelParameters, cid).0
      ensures p.metadata.value["acc"] == evaluate(p.modelParameters, cid).1
    {
      var trained := Trained(parameters, cid);
      var (loss, acc) := evaluate(trained, cid);
      FedAvgUplinkPackage(trained, EpochSamples(epochs, trainLoader(cid, batchSize)), Some(Metrics(loss, acc)))
    }

    /** The number of leading clients of `cids` whose validation loaders are non-empty. */
    function EvaluablePrefix(cids: seq<int>): (k: nat)
      ensures k <= |cids|
      ensures forall i :: 0 <= i < k ==> Evaluable(cids[i])
      ensures k < |cids| ==> !Evaluable(cids[k])
    {
      if |cids| == 0 || !Evaluable(cids[0]) then 0 else 1 + EvaluablePrefix(cids[1..])
    }

    /** The packages for `cids`, one per client, in the order of `cids`. */
    function ClientPackages(parameters: seq<real>, cids: seq<int>): (ps: seq<FedAvgUplinkPackage>)
      requires forall i :: 0 <= i < |cids| ==> Evaluable(cids[i])
      ensures |ps| == |cids|
      ensures forall i :: 0 <= i < |cids| ==> ps[i] == ClientPackage(parameters, cids[i])
    {
      seq(|cids|, i requires 0 <= i < |cids| => ClientPackage(parameters, cids[i]))
    }

    /**
     * `local_process`: train and evaluate each client of `cidList` in the given order,
     * appending one package per client to the cache. The first client with an empty
     * validation loader raises: the packages of the clients before it stay appended.
     */
    method LocalProcess(payload: FedAvgDownlinkPackage, cidList: seq<int>) returns (o: Outcome<EvaluateError>)
      modifies this`cache
      ensures o.Pass? <==> EvaluablePrefix(cidList) == |cidList|
      ensures cache == old(cache) + ClientPackages(payload.modelParameters, cidList[..EvaluablePrefix(cidList)])
    {
      var i := 0;
      while i < |cidList|
        invariant 0 <= i <= |cidList|
        invariant forall k :: 0 <= k < i ==> Evaluable(cidList[k])
        invariant cache == old(cache) + ClientPackages(payload.modelParameters, cidList[..i])
      {
        var cid := cidList[i];
        var pack := Train(payload.modelParameters, cid);
        var metrics := Evaluate(pack.modelParameters, cid);
        if metrics.Failure? {
          EvaluablePrefixAt(cidList, i);
          return Fail(metrics.error);
        }
        var (loss, acc) := metrics.value;
        pack := pack.(metadata := Some(Metrics(loss, acc)));
        assert ClientPackages(payload.modelParameters, cidList[..i + 1])
          == ClientPackages(payload.modelParameters, cidList[..i]) + [pack];
        cache := cache + [pack];
        i := i + 1;
      }
      EvaluablePrefixAt(cidList, i);
      return Pass;
    }

    /** A client that is the first unevaluable one, or the end of the list, is the prefix's end. */
    lemma EvaluablePrefixAt(cids: seq<int>, i: nat)
      requires i <= |cids| && forall k :: 0 <= k < i ==> Evaluable(cids[k])
      requires i < |cids| ==> !Evaluable(cids[i])
      ensures EvaluablePrefix(cids) == i
    {
    }

    /** `uplink_package`: hand over everything buffered so far and start an empty cache. */
    method UplinkPackage() returns (packages: seq<FedAvgUplinkPackage>)
      modifies this`cache
      ensures packages == old(cache) && cache == []
    {
      packages := cache;
      cache := [];
    }
  }

  /**
   * Clients [3, 1, 2] come back in that order, and a second drain right after the first
   * finds nothing.
   */
  method ProcessThenDrainTwice(trainer: FedAvgSerialClientTrainer, payload: FedAvgDownlinkPackage)
    requires trainer.cache == []
    requires trainer.Evaluable(3) && trainer.Evaluable(1) && trainer.Evaluable(2)
    modifies trainer
  {
    var o := trainer.LocalProcess(payload, [3, 1, 2]);
    assert trainer.EvaluablePrefix([3, 1, 2]) == 3 by {
      trainer.EvaluablePrefixAt([3, 1, 2], 3);
    }
    assert o == Pass;
    var first := trainer.UplinkPackage();
    var params := payload.modelParameters;
    assert [3, 1, 2][..3] == [3, 1, 2];
    assert first == [trainer.ClientPackage(params, 3), trainer.ClientPackage(params, 1),
                     trainer.ClientPackage(params, 2)];
    var second := trainer.UplinkPackage();
    assert second == [];
  }

  /** A client with an empty validation loader stops the loop: only the clients before it are cached. */
  method ProcessStopsAtEmptyValidation(trainer: FedAvgSerialClientTrainer, payload: FedAvgDownlinkPackage)
    requires trainer.cache == []
    requires trainer.Evaluable(3) && !trainer.Evaluable(1)
    modifies trainer
  {
    var o := trainer.LocalProcess(payload, [3, 1, 2]);
    assert trainer.EvaluablePrefix([3, 1, 2]) == 1 by {
      trainer.EvaluablePrefixAt([3, 1, 2], 1);
    }
    assert o.Fail?;
    assert [3, 1, 2][..1] == [3];
    assert trainer.cache == [trainer.ClientPackage(payload.modelParameters, 3)];
  }
}
