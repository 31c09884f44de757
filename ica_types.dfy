/**
 * Vocabulary shared by the simple-ica contracts: coins, the channel order and
 * version constants, the packets sent over the channel and the acknowledgements
 * sent back. JSON serialisation is not modelled: a serialised value is kept as
 * the value itself.
 */
module IcaTypes {
  import opened Wrappers

  newtype byte = x: int | 0 <= x < 256
  type Bytes = seq<byte>

  /** A native token amount (`Uint128` in the source, unbounded here). */
  datatype Coin = Coin(denom: string, amount: nat)

  datatype IbcOrder = Unordered | Ordered

  const IBC_APP_VERSION: string := "simple-ica-v2"
  const APP_ORDER: IbcOrder := Unordered
  /** The order the tests use to check that a wrong order is refused. */
  const BAD_APP_ORDER: IbcOrder := Ordered

  /** A message the remote account executes; only the bank transfer is looked into. */
  datatype CosmosMsg =
    | BankSend(toAddress: string, amount: seq<Coin>)
    | OtherMsg(body: Bytes)

  /** A chain query, opaque to the contracts. */
  datatype QueryRequest = QueryRequest(body: Bytes)

  /** The packet a client sends to the host. `sender` and `callbackId` travel with it but the host ignores them. */
  datatype PacketMsg =
    | Dispatch(sender: string, msgs: seq<CosmosMsg>, callbackId: Option<string>)
    | IbcQuery(sender: string, queries: seq<QueryRequest>, callbackId: Option<string>)
    | WhoAmI
    | Balances

  /**
   * A `Binary` value: either raw bytes, or the JSON encoding of an
   * acknowledgement, which the model keeps as the acknowledgement itself.
   */
  datatype Binary = Raw(bytes: Bytes) | EncodedAck(ack: StdAck)

  /** The success payloads, one per packet kind. */
  datatype AckPayload =
    | DispatchResponse(results: seq<Binary>)
    | IbcQueryResponse(results: seq<Binary>)
    | WhoAmIResponse(account: string)
    | BalancesResponse(account: string, balances: seq<Coin>)

  /** `StdAck::Result` (built by `StdAck::success`) or `StdAck::Error` (built by `StdAck::fail`). */
  datatype StdAck = Success(payload: AckPayload) | Fail(error: string)

  /** The standard errors the handlers can raise. `NotFound` carries a tag for the missing value (in the model, the store it was loaded from). */
  datatype StdError =
    | NotFound(store: string)
    | ParseErr(target: string, reason: string)
    | GenericErr(msg: string)
}
