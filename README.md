# FedAvg round bookkeeping, modelled in Dafny

This project models the bookkeeping of the Federated Averaging implementation in
`src/blazefl/contrib/fedavg.py`: the server's round state machine, the weighted
aggregation, the serial client trainer's per-client loop and drain-and-clear cache, the
sample counter of local training, and the parallel trainer's task envelope. The learning
itself (SGD, losses, accuracies) is opaque and enters the model only as function
parameters.

Modules, one per file:

- `Wrappers` (`wrappers.dfy`): `Option`, `Result` and `Outcome`. A Python exception is a
  `Failure`/`Fail` value.
- `Sums` (`sums.dfy`): finite sums and the fact that a sum depends only on the multiset of
  its terms.
- `Packages` (`packages.dfy`): `FedAvgUplinkPackage` and `FedAvgDownlinkPackage`
  (src/blazefl/contrib/fedavg.py:25-53). A serialised model is a `seq<real>`, and the
  optional metrics dict is a `map<string, real>`.
- `Aggregation` (`aggregation.dfy`): `aggregate` over exact reals. Sample counts are `nat`
  weights, and they are normalised by their total.
- `Server` (`server.dfy`): `FedAvgServerHandler` as a class with fields
  `clientBufferCache`, `round` and `parameters`. `RoundState` and `LoadStep` are the pure
  specification of `load`. Lemmas cover sequences of `load` calls, the stop test, and
  sampling.
- `SerialTrainer` (`serial_trainer.dfy`): `FedAvgSerialClientTrainer` as a class whose
  `cache` field the methods update. The training and validation loaders (as the sizes of
  the batches they yield), local SGD and the evaluation metrics are function-valued
  constants.
- `ParallelTrainer` (`parallel_trainer.dfy`): the task envelope `FedAvgDiskSharedData`
  (src/blazefl/contrib/fedavg.py:431-462), with the same ten fields, and
  `FedAvgParallelClientTrainer`. Paths are lists of components.
- `Decimal` (`decimal.dfy`): `f"{cid}"` for an integer, with the parse that inverts it.

Three behaviours of the code are modelled as written:

- `load` appends the payload before it aggregates. When the aggregation raises (vectors of
  different lengths), the payload therefore stays in the buffer and the round does not
  advance. The buffer then holds `num_clients_per_round` packages, so no later `load` can
  ever complete a round (`LoadKeepsBufferBelowQuota`, second half).
- `num_clients_per_round = int(num_clients * sample_ratio)` may be 0 or negative; nothing
  rejects it. With such a quota `load` never fires, and `sample_clients` raises for a
  negative quota.
- `evaluate` divides by the number of validation samples. A client whose validation loader
  is empty therefore raises `ZeroDivisionError` inside `local_process`, which stops there:
  the packages of the clients before it stay in the cache.
- `train` runs no optimizer step when `epochs <= 0` or the training loader is empty, and
  then returns the parameters it was given.
- Checking that the list lengths match is left to torch. The model requires equal lengths,
  which is what `global_update` always passes.

## Model

| member | source | states |
|---|---|---|
| `Aggregation.Aggregate` | src/blazefl/contrib/fedavg.py:167-189 | Succeeds exactly when all parameter vectors have one length (otherwise `torch.stack` raises). The result then has that common length, and its element j is sum_i p_i[j]·w_i / sum_i w_i. |
| `Aggregation.NormalizedWeightsSumToOne` | src/blazefl/contrib/fedavg.py:184-185 | The normalised weights are w_i / sum w, and they add up to exactly 1. |
| `Aggregation.Normalize` | src/blazefl/contrib/fedavg.py:184-185 | `weights / torch.sum(weights)`: one normalised weight per client; `NormalizedWeightsSumToOne` gives their values and their total. |
| `Aggregation.ColumnOfDivided` | src/blazefl/contrib/fedavg.py:185-187 | Multiplying by the normalised weights and then summing equals the raw weighted sum divided by the total weight. |
| `Aggregation.AggregatePermutation` | src/blazefl/contrib/fedavg.py:183-187 | Permuting the parameter list and the weight list by the same permutation keeps the total weight and the aggregate, including the failure case. |
| `Aggregation.ShapePreserved` | src/blazefl/contrib/fedavg.py:183 | Reordering the (parameters, weight) pairs keeps the vectors stackable and keeps their common length. |
| `Server.ParametersOf` | src/blazefl/contrib/fedavg.py:162 | One parameter vector per buffered package, in buffer order: entry i is package i's `model_parameters`. |
| `Server.DataSizesOf` | src/blazefl/contrib/fedavg.py:163 | One weight per buffered package, in buffer order: entry i is package i's `data_size`. |
| `Server.BufferAggregate` | src/blazefl/contrib/fedavg.py:155-165 | `global_update` aggregates exactly the buffer's parameters, weighted by the buffer's `data_size` values in buffer order. Element j is sum_k buffer[k].params[j]·buffer[k].data_size / sum_k buffer[k].data_size. It fails exactly when the buffered vectors differ in length. |
| `Server.BufferOrderIrrelevant` | src/blazefl/contrib/fedavg.py:155-165 | Two buffers holding the same packages in different orders aggregate identically, so arrival order does not matter. |
| `Server.LoadStep` | src/blazefl/contrib/fedavg.py:134-153 | The specification of one `load` on the pure state (round, buffer, parameters): append; if the buffer then holds exactly the quota, aggregate it, advance the round and empty the buffer, or raise with the payload left buffered. `Load`'s first ensures ties the method to it; the lemmas below state its properties. |
| `Server.Run` | src/blazefl/contrib/fedavg.py:134-153 | `load` called with each package of a sequence in turn, stopping at the first call that raises; the subject of `RunCountsRounds` and `IfStopStaysTrue`. |
| `Server.LoadKeepsBufferBelowQuota` | src/blazefl/contrib/fedavg.py:134-153 | With a positive quota and a buffer below it, a `load` that returns leaves the buffer below the quota. Once the buffer is at or past the quota, `load` only appends and returns false. |
| `Server.RunCountsRounds` | src/blazefl/contrib/fedavg.py:134-153 | Start from an empty buffer and load n packages with positive sample counts and equal-length parameters. Then no call raises, n = quota·(rounds advanced) + len(buffer), and len(buffer) < quota. The buffer holds the last len(buffer) packages. The global parameters are the aggregate of the last full batch of quota packages, or are unchanged if no round completed. |
| `Server.IfStopStaysTrue` | src/blazefl/contrib/fedavg.py:124-153 | Across any sequence of packages with positive sample counts, the round never decreases and grows by at most one per call. So once round >= global_round (`if_stop` is true), it stays true. For a single call with any input, `Load` states the same: `old(IfStop()) ==> IfStop()`. |
| `Server.Truncate` | src/blazefl/contrib/fedavg.py:108 | `int(x)` truncates toward zero. For x >= 0 the result is the largest integer <= x; for x < 0 it is the smallest integer >= x. |
| `Server.FedAvgServerHandler.constructor` | src/blazefl/contrib/fedavg.py:76-109 | Sets the quota to int(num_clients · sample_ratio), the round to 0 and the buffer to empty, which establishes the buffer invariant. `if_stop` is initially false exactly when global_round > 0. |
| `Server.FedAvgServerHandler.SampleClients` | src/blazefl/contrib/fedavg.py:111-122 | Raises exactly when the quota is negative or exceeds num_clients. Otherwise it returns exactly the drawn ids: quota of them, each in [0, num_clients), strictly ascending and therefore pairwise distinct. |
| `Server.FedAvgServerHandler.IfStop` | src/blazefl/contrib/fedavg.py:124-132 | True exactly when round >= global_round. Its partners: the constructor makes it false exactly when global_round > 0, and `Load` and `IfStopStaysTrue` show it never turns back to false. |
| `Server.FedAvgServerHandler.DownlinkPackage` | src/blazefl/contrib/fedavg.py:249-258 | A snapshot of the global parameters that changes no state. `Load` states the round trip: right after a `load` that returns true, it carries the aggregate of the completed buffer. |
| `Server.FedAvgServerHandler.GlobalUpdate` | src/blazefl/contrib/fedavg.py:155-165 | Replaces the global parameters by the buffer's aggregate, or raises and leaves them unchanged. |
| `Server.FedAvgServerHandler.Load` | src/blazefl/contrib/fedavg.py:134-153 | The new state is `LoadStep` of the old one. The call always appends the payload and returns true exactly when the buffer then holds num_clients_per_round packages. In that case the round grows by exactly 1, the buffer is emptied, and `downlink_package` returns the aggregate of the completed buffer. Otherwise the round and the parameters are unchanged and the buffer is the old buffer plus the payload. A call that returns keeps the buffer invariant; no call turns `if_stop` back to false. |
| `SerialTrainer.FedAvgSerialClientTrainer.constructor` | src/blazefl/contrib/fedavg.py:282-317 | Stores the configuration and starts with an empty cache. |
| `SerialTrainer.FedAvgSerialClientTrainer.Train` | src/blazefl/contrib/fedavg.py:346-381 | The returned package carries no metadata. Its parameters are the locally updated ones when at least one optimizer step runs, and the given ones otherwise (epochs <= 0 or an empty loader). Its `data_size` is epochs × (total samples in the client's training loader), or 0 when epochs <= 0. |
| `SerialTrainer.FedAvgSerialClientTrainer.Evaluate` | src/blazefl/contrib/fedavg.py:383-417 | Counts the validation samples and raises (division by zero) exactly when there are none; otherwise returns the client's (loss, accuracy) for the given parameters. |
| `SerialTrainer.FedAvgSerialClientTrainer.ClientPackage` | src/blazefl/contrib/fedavg.py:333-344 | Defined for a client with a non-empty validation loader. The package carries the parameters `train` returns (the given ones when no optimizer step runs), the counted samples, and metadata with exactly the keys `loss` and `acc`. These hold the evaluation of the trained parameters on that client's validation data. |
| `SerialTrainer.FedAvgSerialClientTrainer.EvaluablePrefix` | src/blazefl/contrib/fedavg.py:335-344 | The number of leading clients of `cid_list` that `local_process` gets through: all of them have non-empty validation loaders, and the next one, if any, has an empty one. |
| `SerialTrainer.FedAvgSerialClientTrainer.ClientPackages` | src/blazefl/contrib/fedavg.py:333-344 | One package per client id, in the order of the ids: entry i is the package of client i. |
| `SerialTrainer.FedAvgSerialClientTrainer.LocalProcess` | src/blazefl/contrib/fedavg.py:319-344 | Returns normally exactly when every client of `cid_list` has a non-empty validation loader, and then the cache grows by exactly one package per id, in input order. Otherwise it raises at the first client with an empty one, and only the packages of the clients before it are appended. The old entries are untouched. |
| `SerialTrainer.FedAvgSerialClientTrainer.UplinkPackage` | src/blazefl/contrib/fedavg.py:419-428 | Returns the previous cache contents and leaves the cache empty, so a second call in a row returns `[]`. |
| `ParallelTrainer.StateFileName` | src/blazefl/contrib/fedavg.py:654 | The checkpoint file name `f"{cid}.pt"`: the decimal rendering of the client id followed by `.pt`. |
| `ParallelTrainer.StateFileNameInjective` | src/blazefl/contrib/fedavg.py:654 | The checkpoint file names `"{cid}.pt"` of two clients are equal exactly when the clients are. |
| `ParallelTrainer.FedAvgParallelClientTrainer.constructor` | src/blazefl/contrib/fedavg.py:492-535 | Stores the configuration and starts with an empty cache. |
| `ParallelTrainer.FedAvgParallelClientTrainer.GetSharedData` | src/blazefl/contrib/fedavg.py:630-656 | The envelope copies the model selector, model name, dataset, epochs, batch size, learning rate and seed from the trainer. It copies `cid` and `payload` unchanged. Its `state_path` is `state_dir` joined with `"{cid}.pt"`. |
| `ParallelTrainer.FedAvgParallelClientTrainer.SharedDataKeyedByClient` | src/blazefl/contrib/fedavg.py:644-656 | Two envelopes point at the same checkpoint exactly when they are for the same client, whatever their payloads. |
| `ParallelTrainer.FedAvgParallelClientTrainer.UplinkPackage` | src/blazefl/contrib/fedavg.py:658-667 | Returns the previous cache contents and leaves the cache empty. |
| `Decimal.NatToDecimal` | src/blazefl/contrib/fedavg.py:654 | The rendering of a natural number is a non-empty string of digits. It has no leading zero, and it has at least two digits from 10 on. |
| `Decimal.IntToDecimal` | src/blazefl/contrib/fedavg.py:654 | `f"{n}"` for an integer: non-empty, starting with '-' exactly when n is negative, followed by the digits of its absolute value. |
| `Decimal.ParseIntToDecimal` | src/blazefl/contrib/fedavg.py:654 | Parsing the rendering of any integer gives it back, and the rendering starts with '-' exactly for negative integers. |
| `Decimal.DecimalInjective` | src/blazefl/contrib/fedavg.py:654 | Two integers have the same rendering exactly when they are equal. |

## Left out

- Numerics: all floating-point behaviour. Parameters and weights are exact reals, so
  float32 rounding is not modelled and `int(10 * 0.3)` is computed on the exact product.
- Aggregation.Aggregate: requires the two lists to have equal length. torch would also
  broadcast a one-element list against a longer one, and it raises on other mismatches.
  Neither behaviour is modelled, because `global_update` always passes equal lengths.
- Aggregation.Aggregate: requires a positive total weight. With all-zero sample counts the
  code divides by zero and produces NaN or infinity instead of raising.
- Server.FedAvgServerHandler.Load: requires a positive total sample count in a buffer that
  completes a round, for the same reason.
- Server.FedAvgServerHandler.GlobalUpdate: requires a positive total sample count in its
  buffer, for the same reason.
- Server.FedAvgServerHandler.constructor: takes `num_clients` as a natural number.
  `range` of a negative number is empty; that case is not modelled.
- The distribution of `random.sample`. The draw is a parameter of `SampleClients`: any set
  of quota ids in [0, num_clients). Because `sorted` returns the drawn ids in ascending
  order, the result depends only on that set.
- `select_model`, `serialize_model` and `deserialize_model` are foreign calls. The server's
  global model is the `parameters` field.
- Both `evaluate` methods and `get_summary` compute the loss and accuracy by forward passes
  through the model, which is torch code. The serial trainer's metrics are the opaque
  constant `evaluate`; only its sample count and the division by it are modelled. The
  server's `evaluate` and `get_summary` are not part of this model.
- Local SGD is the opaque constant `localUpdate`. A loader is represented by the sizes of
  the batches it yields, and it yields the same sizes in every epoch.
- SerialTrainer.FedAvgSerialClientTrainer.LocalProcess: training and evaluation are
  deterministic functions of the parameters and the client id. The code's loaders and
  model draw on the process-wide random state, so processing one client twice can give
  different packages; in the model the two packages are equal.
- `process_client` and the parallel trainer's static `train`, which only `process_client`
  reaches. They consist of file I/O (`torch.load`/`torch.save`), random-state snapshots
  and `seed_everything`.
- The `ParallelClientTrainer` base class (its `local_process`, the worker pool, and how it
  fills `cache`) is not part of this model. The parallel trainer's empty initial cache is
  assumed from it.
- `tqdm` progress bars, `mkdir`, device placement and the optimizer and criterion objects.
  `deepcopy` in `uplink_package` needs no counterpart, because Dafny sequences are values
  and the drained sequence cannot alias the cache.
