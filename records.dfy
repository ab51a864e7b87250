/**
 * The withdrawal record the server keeps, the fixed service fee, the two
 * layer-2 chains it serves, and the calls it makes to the mainchain node.
 */
module Records {
  import opened Wrappers

  /** `SERVER_FEE_SATS`, copied into every record. */
  const ServerFeeSats: int := 1000

  /** True for the only layer-2 chain names the server accepts. */
  predicate KnownChain(name: string) {
    name == "Thunder" || name == "BitNames"
  }

  /**
   * A call to the mainchain node or to a layer-2 command line that a handler
   * awaits; a handler's trace lists them in the order they are issued.
   */
  datatype Call =
    | GetBalance
    | ValidateAddress(address: string)
    | NewL2Address(chainName: string)
    | NewL1Address
    | SendToAddress(address: string, amount: real)

  /**
   * The fields of a withdrawal record as it is built, which are exactly what
   * its hash is computed over. The generated addresses are the opaque values
   * the address calls returned.
   */
  datatype RequestFields = RequestFields(
    withdrawalDestination: string,
    withdrawalAmount: real,
    layer2ChainName: string,
    serverL1Address: string,
    serverL2Address: string,
    serverFeeSats: int,
    timestamp: string)

  /**
   * A stored withdrawal record: its fields, the hash tagged onto it, and the
   * `txid` and `paid_at` properties that `/paid` writes into it.
   */
  datatype Request = Request(fields: RequestFields, hash: string, txid: Option<string>, paidAt: Option<string>)

  /** SHA-256 over the JSON text of the fields, left uninterpreted. */
  type Digest = RequestFields -> string

  /** What `/withdraw` guarantees of every record it stores. */
  predicate WellFormed(r: Request, digest: Digest) {
    && KnownChain(r.fields.layer2ChainName)
    && r.fields.serverFeeSats == ServerFeeSats
    && r.fields.withdrawalAmount > 0.0
    && r.hash == digest(r.fields)
  }

  /** Every record of the store is well formed. */
  predicate AllWellFormed(requests: seq<Request>, digest: Digest) {
    forall i :: 0 <= i < |requests| ==> WellFormed(requests[i], digest)
  }
}
