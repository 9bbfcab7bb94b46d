/** The packages exchanged between the server and the clients. */
module Packages {
  import opened Wrappers

  /**
   * What a client sends back: its trained parameters (the serialised model, flattened to a
   * vector), the number of samples it trained on, and optional evaluation metrics.
   */
  datatype FedAvgUplinkPackage = FedAvgUplinkPackage(
    modelParameters: seq<real>,
    dataSize: nat,
    metadata: Option<map<string, real>>)

  /** What the server broadcasts: the current global parameters. */
  datatype FedAvgDownlinkPackage = FedAvgDownlinkPackage(modelParameters: seq<real>)
}
