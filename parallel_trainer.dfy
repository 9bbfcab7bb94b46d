/**
 * The parallel client trainer (`FedAvgParallelClientTrainer`): builds, per client, the
 * self-contained task envelope a worker process reads from disk, and drains the packages
 * the workers produced.
 */
module ParallelTrainer {
  import opened Packages
  import opened Decimal

  /** A filesystem path, as its list of components. */
  datatype Path = Path(parts: seq<string>)
  {
    /** `Path.joinpath(name)`: one more component. */
    function JoinPath(name: string): Path
    {
      Path(parts + [name])
    }
  }

  /** The name of client cid's random-state checkpoint file: `f"{cid}.pt"`. */
  function StateFileName(cid: int): string
  {
    IntToDecimal(cid) + ".pt"
  }

  /** Two clients never share a checkpoint file name. */
  lemma StateFileNameInjective(a: int, b: int)
    ensures StateFileName(a) == StateFileName(b) <==> a == b
  {
    if StateFileName(a) == StateFileName(b) {
      var x, y := IntToDecimal(a), IntToDecimal(b);
      assert |x| == |y|;
      assert x == StateFileName(a)[..|x|] == StateFileName(b)[..|y|] == y;
      DecimalInjective(a, b);
    }
  }

  /**
   * The task envelope (`FedAvgDiskSharedData`) for one client: the model selector and
   * dataset handles (of types M and D), the hyperparameters, the client id, the seed, the
   * downlink package, and the path of the client's random-state checkpoint.
   */
  datatype FedAvgDiskSharedData<M, D> = FedAvgDiskSharedData(
    modelSelector: M,
    modelName: string,
    dataset: D,
    epochs: int,
    batchSize: int,
    lr: real,
    cid: int,
    seed: int,
    payload: FedAvgDownlinkPackage,
    statePath: Path)

  class FedAvgParallelClientTrainer<M, D> {
    const modelSelector: M
    const modelName: string
    const shareDir: Path
    const stateDir: Path
    const dataset: D
    const device: string
    const numClients: int
    const epochs: int
    const batchSize: int
    const lr: real
    const seed: int
    const numParallels: int
    /** The packages the workers returned, waiting to be drained. */
    var cache: seq<FedAvgUplinkPackage>

    constructor (modelSelector: M, modelName: string, shareDir: Path, stateDir: Path,
                 dataset: D, device: string, numClients: int, epochs: int,
                 batchSize: int, lr: real, seed: int, numParallels: int)
      ensures this.modelSelector == modelSelector && this.modelName == modelName
      ensures this.shareDir == shareDir && this.stateDir == stateDir
      ensures this.dataset == dataset && this.device == device
      ensures this.numClients == numClients && this.epochs == epochs
      ensures this.batchSize == batchSize && this.lr == lr
      ensures this.seed == seed && this.numParallels == numParallels
      ensures cache == []
    {
      this.modelSelector := modelSelector;
      this.modelName := modelName;
      this.shareDir := shareDir;
      this.stateDir := stateDir;
      this.dataset := dataset;
      this.device := device;
      this.numClients := numClients;
      this.epochs := epochs;
      this.batchSize := batchSize;
      this.lr := lr;
      this.seed := seed;
      this.numParallels := numParallels;
      cache := [];
    }

    /**
     * `get_shared_data(cid, payload)`: the envelope copies the trainer's configuration,
     * the client id and the payload unchanged, and points at the checkpoint
     * `state_dir/"{cid}.pt"`, one file per client: the same client always gets the same
     * file and two clients never share one.
     */
    function GetSharedData(cid: int, payload: FedAvgDownlinkPackage): (d: FedAvgDiskSharedData<M, D>)
      ensures d.modelSelector == modelSelector && d.modelName == modelName && d.dataset == dataset
      ensures d.epochs == epochs && d.batchSize == batchSize && d.lr == lr && d.seed == seed
      ensures d.cid == cid && d.payload == payload
      ensures |d.statePath.parts| == |stateDir.parts| + 1
      ensures d.statePath.parts[..|stateDir.parts|] == stateDir.parts
      ensures d.statePath.parts[|stateDir.parts|] == IntToDecimal(cid) + ".pt"
    {
      FedAvgDiskSharedData(modelSelector, modelName, dataset, epochs, batchSize, lr,
                           cid, seed, payload, stateDir.JoinPath(StateFileName(cid)))
    }

    /**
     * Envelopes for two clients point at the same checkpoint exactly when the clients are
     * the same, whatever payloads they carry.
     */
    lemma SharedDataKeyedByClient(a: int, p: FedAvgDownlinkPackage, b: int, q: FedAvgDownlinkPackage)
      ensures GetSharedData(a, p).statePath == GetSharedData(b, q).statePath <==> a == b
    {
      var x, y := GetSharedData(a, p).statePath, GetSharedData(b, q).statePath;
      if x == y {
        assert x.parts[|stateDir.parts|] == y.parts[|stateDir.parts|];
      }
      StateFileNameInjective(a, b);
    }

    /** `uplink_package`: hand over everything buffered so far and start an empty cache. */
    method UplinkPackage() returns (packages: seq<FedAvgUplinkPackage>)
      modifies this`cache
      ensures packages == old(cache) && cache == []
    {
      packages := cache;
      cache := [];
    }
  }
}
