/** The messages that travel through the engine. */
module Bundles {
  import opened Common

  /** Raw transaction bytes as they arrive in the protobuf message. */
  datatype Packet = Packet(data: seq<bv8>)

  /** A submitted bundle; `packets` is `None` when the request carried no bundle. */
  datatype BundleUuid = BundleUuid(uuid: string, packets: Option<seq<Packet>>) {
    function Packets(): seq<Packet> {
      if packets.Some? then packets.value else []
    }
  }

  /** Results reported to a searcher. The two kinds of `Rejected` are kept apart. */
  datatype ResultKind =
    | Accepted(slot: u64)
    | Processed(slot: u64)
    | Finalized
    | Dropped
    | LostAuction(bidLamports: u64)
    | SimFailure
  {
    predicate Rejected() { LostAuction? || SimFailure? }
    predicate Terminal() { Finalized? || Dropped? || LostAuction? || SimFailure? }
  }

  /** A request to publish `kind` for `uuid`. */
  datatype Publication = Publication(uuid: string, kind: ResultKind)
}
