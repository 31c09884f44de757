/**
 * The simple-ica host: the contract on the remote chain that binds one
 * cw1-whitelist sub-account to every channel, runs the packets it receives
 * through a self-call so that a failed packet yields an error acknowledgement
 * with all its writes undone, and turns replies into acknowledgements.
 */
module Host {
  import opened Wrappers
  import opened IcaTypes
  import OrderedKeys

  const RECEIVE_DISPATCH_ID: nat := 1234
  const INIT_CALLBACK_ID: nat := 7890
  const PROCESS_IBC_ID: nat := 5432

  /**
   * Tags for the value a failed load did not find. The storage library names
   * the value's type in that error; the model tags it by the store instead.
   */
  const CONFIG_KEY: string := "config"
  const PENDING_KEY: string := "pending"
  const ACCOUNTS_KEY: string := "accounts"
  const RESULTS_KEY: string := "results"

  const LABEL_PREFIX: string := "ibc-reflect-"

  // ---------------------------------------------------------------- errors

  /** The handshake check errors. */
  datatype SimpleIcaError = InvalidChannelOrder | InvalidChannelVersion(expected: string)

  datatype ContractError =
    | Std(std: StdError)
    | ParseReply(reason: string)
    | ChannelAlreadyRegistered
    | InvalidReplyId
    | OnlySelfCall
    | SimpleIca(check: SimpleIcaError)
    /** A failed `unwrap`; the call aborts as with an error. */
    | Panic(reason: string)

  // ---------------------------------------------------------------- messages

  /** The wasm messages the host emits. Their JSON payloads are kept as values. */
  datatype WasmMsg =
    /** Instantiate a cw1-whitelist with `admins` and `mutable`. */
    | Instantiate(admin: Option<string>, codeId: nat, admins: seq<string>, mutable: bool, funds: seq<Coin>, contractLabel: string)
    /** cw1-whitelist `Execute { msgs }` on a sub-account. */
    | ExecuteWhitelist(contract: string, msgs: seq<CosmosMsg>, funds: seq<Coin>)
    /** `ReflectMsg { msgs }` on a sub-account. */
    | ExecuteReflect(contract: string, msgs: seq<CosmosMsg>, funds: seq<Coin>)
    /** The host's own `ProcessIbc { caller, packet }`. */
    | ExecuteProcessIbc(contract: string, caller: string, packet: PacketMsg, funds: seq<Coin>)

  datatype ReplyOn = Never | OnSuccess | Always

  /** `SubMsg::new` has id 0 and never replies. */
  datatype SubMsg = SubMsg(id: nat, msg: WasmMsg, replyOn: ReplyOn)

  /** A `Response` or `IbcBasicResponse`: submessages and the data field. */
  datatype Response = Response(messages: seq<SubMsg>, data: Option<Binary>)

  /** An `IbcReceiveResponse`: the acknowledgement and submessages. */
  datatype ReceiveResponse = ReceiveResponse(ack: Binary, messages: seq<SubMsg>)

  datatype SubMsgResult = SubOk(data: Option<Binary>) | SubErr(error: string)

  datatype Reply = Reply(id: nat, result: SubMsgResult)

  datatype IbcPacket = IbcPacket(destChannel: string, data: Bytes)

  datatype ChannelOpenMsg = ChannelOpenMsg(channelId: string, order: IbcOrder, version: string, counterpartyVersion: Option<string>)

  datatype AccountInfo = AccountInfo(account: string, channelId: string)

  /** A raw query's `SystemResult<ContractResult<Binary>>`, flattened. */
  datatype QuerierResult = SystemErr(error: string) | ContractErr(error: string) | QueryOk(value: Bytes)

  /**
   * What the chain and the runtime answer, taken as given: raw queries, bank
   * balances, JSON decoding of packet data, `parse_reply_instantiate_data`,
   * `addr_validate`, the result of executing messages on a sub-account, and
   * the text the runtime hands to a reply for a failed call.
   */
  datatype Chain = Chain(
    rawQuery: QueryRequest -> QuerierResult,
    allBalances: string -> Result<seq<Coin>, StdError>,
    decodePacket: Bytes -> Result<PacketMsg, string>,
    parseInstantiate: SubMsgResult -> Result<string, string>,
    addrValidate: string -> Result<string, StdError>,
    runAccount: (string, seq<CosmosMsg>) -> Result<Option<Binary>, string>,
    errorText: ContractError -> string)

  // ---------------------------------------------------------------- store

  datatype Config = Config(cw1CodeId: nat)

  /** The host's four stores: CONFIG, PENDING, ACCOUNTS (channel to sub-account) and RESULTS. */
  datatype HostStore = HostStore(config: Config, pending: Option<string>, accounts: map<string, string>, results: Option<seq<Binary>>)

  // ---------------------------------------------------------------- handshake

  /** `check_order`: only the application's channel order is accepted. */
  function CheckOrder(order: IbcOrder): (r: Result<(), SimpleIcaError>)
    ensures r.Ok? <==> order == APP_ORDER
    ensures r.Err? ==> r.error == InvalidChannelOrder
  {
    if order != APP_ORDER then Err(InvalidChannelOrder) else Ok(())
  }

  /** `check_version`: only the application's version is accepted; the error names the expected one. */
  function CheckVersion(version: string): (r: Result<(), SimpleIcaError>)
    ensures r.Ok? <==> version == IBC_APP_VERSION
    ensures r.Err? ==> r.error == InvalidChannelVersion(IBC_APP_VERSION)
  {
    if version != IBC_APP_VERSION then Err(InvalidChannelVersion(IBC_APP_VERSION)) else Ok(())
  }

  /** `ibc_channel_open`: the version the host answers with. */
  function ChannelOpen(msg: ChannelOpenMsg): (r: Result<string, ContractError>)
    ensures r.Ok? <==> (msg.order == APP_ORDER &&
                        (msg.counterpartyVersion.Some? ==> msg.counterpartyVersion.value == IBC_APP_VERSION))
    ensures r.Ok? ==> r.value == IBC_APP_VERSION
    ensures msg.order != APP_ORDER ==> r == Err(SimpleIca(InvalidChannelOrder))
    ensures msg.order == APP_ORDER && r.Err? ==> r == Err(SimpleIca(InvalidChannelVersion(IBC_APP_VERSION)))
  {
    if CheckOrder(msg.order).Err? then Err(SimpleIca(CheckOrder(msg.order).error))
    else if msg.counterpartyVersion.Some? && CheckVersion(msg.counterpartyVersion.value).Err? then
      Err(SimpleIca(CheckVersion(msg.counterpartyVersion.value).error))
    else Ok(IBC_APP_VERSION)
  }

  predicate EndsWith(s: string, suffix: string)
  {
    |suffix| <= |s| && s[|s| - |suffix|..] == suffix
  }

  /** The submessage `ibc_channel_connect` emits to create the channel's sub-account. */
  function ConnectMsg(codeId: nat, host: string, channelId: string): (m: SubMsg)
    ensures m.id == INIT_CALLBACK_ID && m.replyOn == OnSuccess
    ensures m.msg.Instantiate? && m.msg.admin == None && m.msg.codeId == codeId && m.msg.funds == []
    ensures m.msg.admins == [host] && !m.msg.mutable
    ensures EndsWith(m.msg.contractLabel, channelId)
  {
    var name := LABEL_PREFIX + channelId;
    assert name[|name| - |channelId|..] == channelId;
    SubMsg(INIT_CALLBACK_ID, Instantiate(None, codeId, [host], false, [], name), OnSuccess)
  }

  /** The messages `ibc_channel_close` emits: one sweep of the whole balance to the host, if there is any. */
  function SweepMsgs(reflectAddr: string, host: string, amount: seq<Coin>): (msgs: seq<SubMsg>)
    ensures msgs == [] <==> amount == []
    ensures |msgs| <= 1
    ensures forall m :: m in msgs ==>
              m.id == 0 && m.replyOn == Never && m.msg == ExecuteReflect(reflectAddr, [BankSend(host, amount)], [])
  {
    if amount != [] then [SubMsg(0, ExecuteReflect(reflectAddr, [BankSend(host, amount)], []), Never)] else []
  }

  // ---------------------------------------------------------------- replies

  datatype ReplyKind = DispatchCallback | InitCallback | ProcessIbc

  function ReplyId(k: ReplyKind): nat
  {
    match k
    case DispatchCallback => RECEIVE_DISPATCH_ID
    case InitCallback => INIT_CALLBACK_ID
    case ProcessIbc => PROCESS_IBC_ID
  }

  /** `reply`'s match on the id: the three ids the host uses, and nothing else. */
  function ReplyRoute(id: nat): (r: Result<ReplyKind, ContractError>)
    ensures r.Ok? <==> id == RECEIVE_DISPATCH_ID || id == INIT_CALLBACK_ID || id == PROCESS_IBC_ID
    ensures r.Ok? ==> ReplyId(r.value) == id
    ensures r.Err? ==> r.error == InvalidReplyId
  {
    if id == RECEIVE_DISPATCH_ID then Ok(DispatchCallback)
    else if id == INIT_CALLBACK_ID then Ok(InitCallback)
    else if id == PROCESS_IBC_ID then Ok(ProcessIbc)
    else Err(InvalidReplyId)
  }

  /**
   * `reply_process_ibc`: the inner call's data becomes the acknowledgement
   * verbatim; a failed inner call becomes `StdAck::fail` of its error. It fails
   * only when a successful inner call set no data (the `unwrap`).
   */
  function ReplyProcessIbc(result: SubMsgResult): (r: Result<Response, ContractError>)
    ensures result.SubErr? ==> r == Ok(Response([], Some(EncodedAck(Fail(result.error)))))
    ensures result.SubOk? && result.data.Some? ==> r == Ok(Response([], Some(result.data.value)))
    ensures r.Err? <==> result == SubOk(None)
  {
    match result
    case SubOk(data) =>
      if data.Some? then Ok(Response([], Some(data.value))) else Err(Panic("reply without data"))
    case SubErr(e) => Ok(Response([], Some(EncodedAck(Fail(e)))))
  }

  /** `reply_dispatch_callback` on a store value. */
  function DispatchCallbackOutcome(s: HostStore, result: SubMsgResult): (r: Result<(HostStore, Response), ContractError>)
    ensures s.results.None? ==> r == Err(Std(NotFound(RESULTS_KEY)))
    ensures s.results.Some? && result.SubErr? ==> r.Err? && r.error.Panic?
    ensures r.Ok? <==> s.results.Some? && result.SubOk?
    ensures r.Ok? ==>
      var acc := s.results.value + [result.data.UnwrapOr(Raw([]))];
      r.value.0 == s.(results := Some(acc))
      && r.value.1 == Response([], Some(EncodedAck(Success(DispatchResponse(acc)))))
  {
    if s.results.None? then Err(Std(NotFound(RESULTS_KEY)))
    else if result.SubErr? then Err(Panic("dispatch reply carries an error"))
    else
      var acc := s.results.value + [result.data.UnwrapOr(Raw([]))];
      Ok((s.(results := Some(acc)), Response([], Some(EncodedAck(Success(DispatchResponse(acc)))))))
  }

  /** `reply_init_callback` on a store value. */
  function InitCallbackOutcome(s: HostStore, result: SubMsgResult, chain: Chain): (r: Result<(HostStore, Response), ContractError>)
    ensures s.pending.None? ==> r == Err(Std(NotFound(PENDING_KEY)))
    ensures r.Ok? <==> && s.pending.Some?
                       && chain.parseInstantiate(result).Ok?
                       && chain.addrValidate(chain.parseInstantiate(result).value).Ok?
                       && s.pending.value !in s.accounts
    ensures && s.pending.Some?
            && chain.parseInstantiate(result).Ok?
            && chain.addrValidate(chain.parseInstantiate(result).value).Ok?
            && s.pending.value in s.accounts
            ==> r == Err(ChannelAlreadyRegistered)
    ensures r.Ok? ==>
      && r.value.0.pending == None
      && r.value.0.accounts == s.accounts[s.pending.value := chain.addrValidate(chain.parseInstantiate(result).value).value]
      && r.value.0.config == s.config && r.value.0.results == s.results
      && r.value.1 == Response([], None)
  {
    if s.pending.None? then Err(Std(NotFound(PENDING_KEY)))
    else
      var id := s.pending.value;
      match chain.parseInstantiate(result)
      case Err(e) => Err(ParseReply(e))
      case Ok(raw) =>
        match chain.addrValidate(raw)
        case Err(e) => Err(Std(e))
        case Ok(addr) =>
          if id in s.accounts then Err(ChannelAlreadyRegistered)
          else Ok((s.(pending := None, accounts := s.accounts[id := addr]), Response([], None)))
  }

  /** `reply` on a store value: route by id, then run the handler. */
  function ReplyOutcome(s: HostStore, reply: Reply, chain: Chain): (r: Result<(HostStore, Response), ContractError>)
    ensures ReplyRoute(reply.id).Err? ==> r == Err(InvalidReplyId)
    ensures reply.id == PROCESS_IBC_ID ==> r.Ok? ==> r.value.0 == s
  {
    match ReplyRoute(reply.id)
    case Err(e) => Err(e)
    case Ok(DispatchCallback) => DispatchCallbackOutcome(s, reply.result)
    case Ok(InitCallback) => InitCallbackOutcome(s, reply.result, chain)
    case Ok(ProcessIbc) =>
      match ReplyProcessIbc(reply.result)
      case Err(e) => Err(e)
      case Ok(res) => Ok((s, res))
  }

  // ---------------------------------------------------------------- packet processing

  /** `unparsed_query`: one raw query, its two failure kinds turned into generic errors. */
  function UnparsedQuery(q: QueryRequest, rawQuery: QueryRequest -> QuerierResult): (r: Result<Binary, ContractError>)
    ensures r.Ok? <==> rawQuery(q).QueryOk?
    ensures r.Ok? ==> r.value == Raw(rawQuery(q).value)
    ensures rawQuery(q).SystemErr? ==> r == Err(Std(GenericErr("Querier system error: " + rawQuery(q).error)))
    ensures rawQuery(q).ContractErr? ==> r == Err(Std(GenericErr("Querier contract error: " + rawQuery(q).error)))
  {
    match rawQuery(q)
    case SystemErr(e) => Err(Std(GenericErr("Querier system error: " + e)))
    case ContractErr(e) => Err(Std(GenericErr("Querier contract error: " + e)))
    case QueryOk(v) => Ok(Raw(v))
  }

  /** All queries before index `k` answered. */
  ghost predicate AnsweredBefore(queries: seq<QueryRequest>, rawQuery: QueryRequest -> QuerierResult, k: int)
  {
    forall i :: 0 <= i < k && i < |queries| ==> rawQuery(queries[i]).QueryOk?
  }

  /**
   * The results `receive_query` collects: one per query, in order, or the
   * error of the first query that fails.
   */
  function QueryResults(queries: seq<QueryRequest>, rawQuery: QueryRequest -> QuerierResult): (r: Result<seq<Binary>, ContractError>)
    ensures r.Ok? <==> AnsweredBefore(queries, rawQuery, |queries|)
    ensures r.Ok? ==> |r.value| == |queries|
    ensures r.Ok? ==> forall i :: 0 <= i < |queries| ==> r.value[i] == Raw(rawQuery(queries[i]).value)
    ensures r.Err? ==> exists k :: 0 <= k < |queries| && AnsweredBefore(queries, rawQuery, k)
                                 && UnparsedQuery(queries[k], rawQuery) == Err(r.error)
  {
    if queries == [] then Ok([])
    else
      match UnparsedQuery(queries[0], rawQuery)
      case Err(e) =>
        assert AnsweredBefore(queries, rawQuery, 0);
        Err(e)
      case Ok(head) =>
        match QueryResults(queries[1..], rawQuery)
        case Err(e) =>
          ghost var k :| 0 <= k < |queries[1..]| && AnsweredBefore(queries[1..], rawQuery, k)
                         && UnparsedQuery(queries[1..][k], rawQuery) == Err(e);
          assert AnsweredBefore(queries, rawQuery, k + 1);
          Err(e)
        case Ok(tail) => Ok([head] + tail)
  }

  function QueryAck(results: seq<Binary>): Binary
  {
    EncodedAck(Success(IbcQueryResponse(results)))
  }

  /** `receive_who_am_i` on a store value. */
  function ReceiveWhoAmI(s: HostStore, caller: string): (r: Result<Response, ContractError>)
    ensures r.Ok? <==> caller in s.accounts
    ensures r.Ok? ==> r.value == Response([], Some(EncodedAck(Success(WhoAmIResponse(s.accounts[caller])))))
  {
    if caller !in s.accounts then Err(Std(NotFound(ACCOUNTS_KEY)))
    else Ok(Response([], Some(EncodedAck(Success(WhoAmIResponse(s.accounts[caller]))))))
  }

  /** `receive_balances` on a store value. */
  function ReceiveBalances(s: HostStore, caller: string, chain: Chain): (r: Result<Response, ContractError>)
    ensures r.Ok? <==> caller in s.accounts && chain.allBalances(s.accounts[caller]).Ok?
    ensures r.Ok? ==> var account := s.accounts[caller];
      r.value == Response([], Some(EncodedAck(Success(BalancesResponse(account, chain.allBalances(account).value)))))
  {
    if caller !in s.accounts then Err(Std(NotFound(ACCOUNTS_KEY)))
    else
      var account := s.accounts[caller];
      match chain.allBalances(account)
      case Err(e) => Err(Std(e))
      case Ok(balances) => Ok(Response([], Some(EncodedAck(Success(BalancesResponse(account, balances))))))
  }

  /** The execute `receive_dispatch` sends to the channel's sub-account, reporting back on success. */
  function DispatchMsg(account: string, msgs: seq<CosmosMsg>): SubMsg
  {
    SubMsg(RECEIVE_DISPATCH_ID, ExecuteWhitelist(account, msgs, []), OnSuccess)
  }

  /** `receive_dispatch` on a store value. */
  function ReceiveDispatchOutcome(s: HostStore, caller: string, msgs: seq<CosmosMsg>): (r: Result<(HostStore, Response), ContractError>)
    ensures r.Ok? <==> caller in s.accounts
    ensures r.Ok? ==> r.value.0 == s.(results := Some([]))
    ensures r.Ok? ==> r.value.1 == Response([DispatchMsg(s.accounts[caller], msgs)], Some(EncodedAck(Success(DispatchResponse([])))))
  {
    if caller !in s.accounts then Err(Std(NotFound(ACCOUNTS_KEY)))
    else Ok((s.(results := Some([])), Response([DispatchMsg(s.accounts[caller], msgs)], Some(EncodedAck(Success(DispatchResponse([])))))))
  }

  /**
   * `process_ibc_packet` on a store value: only the host itself may call it.
   * Every successful call sets the data field; only a dispatch writes (it
   * resets RESULTS) or emits a submessage.
   */
  function ProcessIbcOutcome(s: HostStore, host: string, sender: string, caller: string, packet: PacketMsg, chain: Chain)
    : (r: Result<(HostStore, Response), ContractError>)
    ensures sender != host ==> r == Err(OnlySelfCall)
    ensures r.Ok? ==> sender == host && r.value.1.data.Some?
    ensures r.Ok? && !packet.Dispatch? ==> r.value.0 == s && r.value.1.messages == []
    ensures r.Ok? && packet.Dispatch? ==> caller in s.accounts && r.value.0 == s.(results := Some([]))
    ensures r.Ok? && packet.Dispatch? ==> r.value.1.messages == [DispatchMsg(s.accounts[caller], packet.msgs)]
  {
    if sender != host then Err(OnlySelfCall)
    else
      match packet
      case Dispatch(_, msgs, _) => ReceiveDispatchOutcome(s, caller, msgs)
      case IbcQuery(_, queries, _) =>
        (match QueryResults(queries, chain.rawQuery)
         case Err(e) => Err(e)
         case Ok(results) => Ok((s, Response([], Some(QueryAck(results))))))
      case WhoAmI =>
        (match ReceiveWhoAmI(s, caller)
         case Err(e) => Err(e)
         case Ok(res) => Ok((s, res)))
      case Balances =>
        (match ReceiveBalances(s, caller, chain)
         case Err(e) => Err(e)
         case Ok(res) => Ok((s, res)))
  }

  /**
   * What the runtime makes of the self-call that `ibc_packet_receive` emits:
   * `ProcessIbc` runs with the host as sender; a dispatch's execute on the
   * sub-account runs next and, on success, its reply. Any failure among them
   * discards all their writes and is reported to the reply as an error; on
   * success the last data set is the call's data.
   */
  function SelfCallOutcome(s: HostStore, host: string, caller: string, packet: PacketMsg, chain: Chain): (r: (HostStore, SubMsgResult))
    ensures r.1.SubErr? ==> r.0 == s
    ensures r.1.SubOk? ==> r.1.data.Some?
    ensures !packet.Dispatch? ==> r.0 == s
  {
    match ProcessIbcOutcome(s, host, host, caller, packet, chain)
    case Err(e) => (s, SubErr(chain.errorText(e)))
    case Ok((s1, res)) =>
      if res.messages == [] then (s1, SubOk(res.data))
      else
        var m := res.messages[0];
        match chain.runAccount(m.msg.contract, m.msg.msgs)
        // The runtime hands the sub-account's failure over already rendered.
        case Err(e) => (s, SubErr(e))
        case Ok(data) =>
          match ReplyOutcome(s1, Reply(m.id, SubOk(data)), chain)
          case Err(e) => (s, SubErr(chain.errorText(e)))
          case Ok((s2, rep)) => (s2, SubOk(if rep.data.Some? then rep.data else res.data))
  }

  /** The acknowledgement `reply_process_ibc` writes for a self-call result that carries data. */
  function AckOf(result: SubMsgResult): Binary
    requires result.SubOk? ==> result.data.Some?
  {
    if result.SubErr? then EncodedAck(Fail(result.error)) else result.data.value
  }

  function Prepend(prefix: seq<Binary>, r: Result<seq<Binary>, ContractError>): Result<seq<Binary>, ContractError>
  {
    if r.Ok? then Ok(prefix + r.value) else r
  }

  lemma PrependNothing(queries: seq<QueryRequest>, rawQuery: QueryRequest -> QuerierResult)
    ensures QueryResults(queries, rawQuery) == Prepend([], QueryResults(queries[0..], rawQuery))
  {
    assert queries[0..] == queries;
    var r := QueryResults(queries, rawQuery);
    if r.Ok? {
      assert [] + r.value == r.value;
    }
  }

  lemma PrependTwice(a: seq<Binary>, b: seq<Binary>, r: Result<seq<Binary>, ContractError>)
    ensures Prepend(a, Prepend(b, r)) == Prepend(a + b, r)
  {
    if r.Ok? {
      assert a + (b + r.value) == (a + b) + r.value;
    }
  }

  /** One step of `QueryResults` from position `i`. */
  lemma QueryResultsStep(queries: seq<QueryRequest>, i: nat, rawQuery: QueryRequest -> QuerierResult)
    requires i < |queries|
    ensures UnparsedQuery(queries[i], rawQuery).Err? ==>
              QueryResults(queries[i..], rawQuery) == Err(UnparsedQuery(queries[i], rawQuery).error)
    ensures UnparsedQuery(queries[i], rawQuery).Ok? ==>
              QueryResults(queries[i..], rawQuery)
              == Prepend([UnparsedQuery(queries[i], rawQuery).value], QueryResults(queries[i + 1..], rawQuery))
  {
    assert queries[i..][0] == queries[i] && queries[i..][1..] == queries[i + 1..];
  }

  /** `receive_query`: runs the queries in order, stopping at the first failure. */
  method ReceiveQuery(queries: seq<QueryRequest>, rawQuery: QueryRequest -> QuerierResult) returns (r: Result<Response, ContractError>)
    ensures QueryResults(queries, rawQuery).Err? ==> r == Err(QueryResults(queries, rawQuery).error)
    ensures QueryResults(queries, rawQuery).Ok? ==> r == Ok(Response([], Some(QueryAck(QueryResults(queries, rawQuery).value))))
  {
    var results: seq<Binary> := [];
    var i := 0;
    PrependNothing(queries, rawQuery);
    while i < |queries|
      invariant 0 <= i <= |queries|
      invariant QueryResults(queries, rawQuery) == Prepend(results, QueryResults(queries[i..], rawQuery))
    {
      var res := UnparsedQuery(queries[i], rawQuery);
      QueryResultsStep(queries, i, rawQuery);
      if res.Err? {
        return Err(res.error);
      }
      PrependTwice(results, [res.value], QueryResults(queries[i + 1..], rawQuery));
      results := results + [res.value];
      i := i + 1;
    }
    assert queries[i..] == [];
    assert results + [] == results;
    r := Ok(Response([], Some(QueryAck(results))));
  }

  /**
   * The host contract and its stores. An entry point that fails has its
   * writes discarded by the runtime; the methods below restore a snapshot
   * on those paths.
   */
  class HostContract {
    /** `env.contract.address`. */
    const address: string
    var config: Config
    var pending: Option<string>
    var accounts: map<string, string>
    var results: Option<seq<Binary>>

    function State(): HostStore
      reads this
    {
      HostStore(config, pending, accounts, results)
    }

    /** `instantiate`: only CONFIG is written. */
    constructor (address: string, cw1CodeId: nat)
      ensures this.address == address
      ensures State() == HostStore(Config(cw1CodeId), None, map[], None)
    {
      this.address := address;
      config := Config(cw1CodeId);
      pending := None;
      accounts := map[];
      results := None;
    }

    /** Puts a snapshot back: the runtime's rollback of a failed call. */
    method Restore(s: HostStore)
      modifies this
      ensures State() == s
    {
      config, pending, accounts, results := s.config, s.pending, s.accounts, s.results;
    }

    /** `ibc_channel_connect`: remember the channel in PENDING (overwriting) and create its sub-account. */
    method ChannelConnect(channelId: string) returns (res: Response)
      modifies this
      ensures State() == old(State()).(pending := Some(channelId))
      ensures res == Response([ConnectMsg(config.cw1CodeId, address, channelId)], None)
    {
      var cfg := config;
      var msg := ConnectMsg(cfg.cw1CodeId, address, channelId);
      pending := Some(channelId);
      res := Response([msg], None);
    }

    /** `ibc_channel_close`: unbind the channel's account and sweep its balance to the host. */
    method ChannelClose(channelId: string, chain: Chain) returns (r: Result<Response, ContractError>)
      modifies this
      ensures r.Ok? <==> channelId in old(accounts) && chain.allBalances(old(accounts)[channelId]).Ok?
      ensures channelId !in old(accounts) ==> r == Err(Std(NotFound(ACCOUNTS_KEY)))
      ensures r.Err? ==> State() == old(State())
      ensures r.Ok? ==> State() == old(State()).(accounts := old(accounts) - {channelId})
      ensures r.Ok? ==> r.value == Response(SweepMsgs(old(accounts)[channelId], address, chain.allBalances(old(accounts)[channelId]).value), None)
    {
      var snapshot := State();
      if channelId !in accounts {
        return Err(Std(NotFound(ACCOUNTS_KEY)));
      }
      var reflectAddr := accounts[channelId];
      accounts := accounts - {channelId};
      var amount := chain.allBalances(reflectAddr);
      if amount.Err? {
        Restore(snapshot);
        return Err(Std(amount.error));
      }
      r := Ok(Response(SweepMsgs(reflectAddr, address, amount.value), None));
    }

    /** `reply`: route by id; a failed handler leaves no writes. */
    method OnReply(reply: Reply, chain: Chain) returns (r: Result<Response, ContractError>)
      modifies this
      ensures r.Err? ==> State() == old(State())
      ensures r.Ok? ==> ReplyOutcome(old(State()), reply, chain) == Ok((State(), r.value))
      ensures r.Err? ==> ReplyOutcome(old(State()), reply, chain) == Err(r.error)
    {
      var route := ReplyRoute(reply.id);
      if route.Err? {
        return Err(route.error);
      }
      var snapshot := State();
      match route.value {
        case DispatchCallback => r := ReplyDispatchCallback(reply.result);
        case InitCallback => r := ReplyInitCallback(reply.result, chain);
        case ProcessIbc => r := ReplyProcessIbc(reply.result);
      }
      if r.Err? {
        Restore(snapshot);
      }
    }

    /** `reply_dispatch_callback`: load RESULTS, push the reply's data, save, acknowledge the list. */
    method ReplyDispatchCallback(result: SubMsgResult) returns (r: Result<Response, ContractError>)
      modifies this`results
      ensures r.Ok? ==> DispatchCallbackOutcome(old(State()), result) == Ok((State(), r.value))
      ensures r.Err? ==> DispatchCallbackOutcome(old(State()), result) == Err(r.error)
    {
      if results.None? {
        return Err(Std(NotFound(RESULTS_KEY)));
      }
      var list := results.value;
      if result.SubErr? {
        return Err(Panic("dispatch reply carries an error"));
      }
      list := list + [result.data.UnwrapOr(Raw([]))];
      results := Some(list);
      r := Ok(Response([], Some(EncodedAck(Success(DispatchResponse(list))))));
    }

    /** `reply_init_callback`: take PENDING and bind it to the new sub-account, unless already bound. */
    method ReplyInitCallback(result: SubMsgResult, chain: Chain) returns (r: Result<Response, ContractError>)
      modifies this`pending, this`accounts
      ensures r.Ok? ==> InitCallbackOutcome(old(State()), result, chain) == Ok((State(), r.value))
      ensures r.Err? ==> InitCallbackOutcome(old(State()), result, chain) == Err(r.error)
    {
      if pending.None? {
        return Err(Std(NotFound(PENDING_KEY)));
      }
      var id := pending.value;
      pending := None;
      var raw := chain.parseInstantiate(result);
      if raw.Err? {
        return Err(ParseReply(raw.error));
      }
      var addr := chain.addrValidate(raw.value);
      if addr.Err? {
        return Err(Std(addr.error));
      }
      if id in accounts {
        return Err(ChannelAlreadyRegistered);
      }
      accounts := accounts[id := addr.value];
      r := Ok(Response([], None));
    }

    /** `ibc_packet_receive`: the pre-checks, then a self-call that always replies. Writes nothing. */
    function PacketReceive(packet: IbcPacket, decode: Bytes -> Result<PacketMsg, string>): (r: Result<ReceiveResponse, ContractError>)
      reads this
      ensures r.Ok? <==> packet.destChannel in accounts && decode(packet.data).Ok?
      ensures packet.destChannel !in accounts ==> r == Err(Std(NotFound(ACCOUNTS_KEY)))
      ensures r.Ok? ==> r.value == ReceiveResponse(Raw([]),
                [SubMsg(PROCESS_IBC_ID, ExecuteProcessIbc(address, packet.destChannel, decode(packet.data).value, []), Always)])
    {
      var caller := packet.destChannel;
      if caller !in accounts then Err(Std(NotFound(ACCOUNTS_KEY)))
      else
        match decode(packet.data)
        case Err(e) => Err(Std(ParseErr("PacketMsg", e)))
        case Ok(msg) => Ok(ReceiveResponse(Raw([]), [SubMsg(PROCESS_IBC_ID, ExecuteProcessIbc(address, caller, msg, []), Always)]))
    }

    /** `execute` with `ProcessIbc { caller, packet }`, i.e. `process_ibc_packet`. */
    method Execute(sender: string, caller: string, packet: PacketMsg, chain: Chain) returns (r: Result<Response, ContractError>)
      modifies this
      ensures r.Err? ==> State() == old(State())
      ensures r.Ok? ==> ProcessIbcOutcome(old(State()), address, sender, caller, packet, chain) == Ok((State(), r.value))
      ensures r.Err? ==> ProcessIbcOutcome(old(State()), address, sender, caller, packet, chain) == Err(r.error)
    {
      if sender != address {
        return Err(OnlySelfCall);
      }
      match packet {
        case Dispatch(_, msgs, _) => r := ReceiveDispatch(caller, msgs);
        case IbcQuery(_, queries, _) => r := ReceiveQuery(queries, chain.rawQuery);
        case WhoAmI => r := ReceiveWhoAmI(State(), caller);
        case Balances => r := ReceiveBalances(State(), caller, chain);
      }
    }

    /** `receive_dispatch`: reset RESULTS and forward the messages to the caller's sub-account. */
    method ReceiveDispatch(caller: string, msgs: seq<CosmosMsg>) returns (r: Result<Response, ContractError>)
      modifies this`results
      ensures r.Err? ==> State() == old(State())
      ensures r.Ok? ==> ReceiveDispatchOutcome(old(State()), caller, msgs) == Ok((State(), r.value))
      ensures r.Err? ==> ReceiveDispatchOutcome(old(State()), caller, msgs) == Err(r.error)
    {
      if caller !in accounts {
        return Err(Std(NotFound(ACCOUNTS_KEY)));
      }
      var reflectAddr := accounts[caller];
      var ack := EncodedAck(Success(DispatchResponse([])));
      var msg := DispatchMsg(reflectAddr, msgs);
      results := Some([]);
      r := Ok(Response([msg], Some(ack)));
    }

    /** The runtime running the `ProcessIbc` self-call and the submessages it emits, as one unit. */
    method RunSelfCall(caller: string, packet: PacketMsg, chain: Chain) returns (result: SubMsgResult)
      modifies this
      ensures (State(), result) == SelfCallOutcome(old(State()), address, caller, packet, chain)
    {
      var snapshot := State();
      var call := Execute(address, caller, packet, chain);
      if call.Err? {
        return SubErr(chain.errorText(call.error));
      }
      var res := call.value;
      if res.messages == [] {
        return SubOk(res.data);
      }
      var m := res.messages[0];
      var executed := chain.runAccount(m.msg.contract, m.msg.msgs);
      if executed.Err? {
        Restore(snapshot);
        return SubErr(executed.error);
      }
      var rep := OnReply(Reply(m.id, SubOk(executed.value)), chain);
      if rep.Err? {
        Restore(snapshot);
        return SubErr(chain.errorText(rep.error));
      }
      result := SubOk(if rep.value.data.Some? then rep.value.data else res.data);
    }

    /**
     * A packet as the runtime delivers it: `ibc_packet_receive`, its self-call,
     * and `reply_process_ibc`, whose data replaces the empty acknowledgement.
     */
    method DeliverPacket(packet: IbcPacket, chain: Chain) returns (r: Result<Binary, ContractError>)
      modifies this
      ensures old(PacketReceive(packet, chain.decodePacket)).Err? ==>
                r == Err(old(PacketReceive(packet, chain.decodePacket)).error) && State() == old(State())
      ensures old(PacketReceive(packet, chain.decodePacket)).Ok? ==>
                var outcome := SelfCallOutcome(old(State()), address, packet.destChannel, chain.decodePacket(packet.data).value, chain);
                State() == outcome.0 && r == Ok(AckOf(outcome.1))
    {
      var pre := PacketReceive(packet, chain.decodePacket);
      if pre.Err? {
        return Err(pre.error);
      }
      var sub := pre.value.messages[0];
      var inner := RunSelfCall(sub.msg.caller, sub.msg.packet, chain);
      var rep := OnReply(Reply(sub.id, inner), chain);
      r := Ok(if rep.value.data.Some? then rep.value.data.value else pre.value.ack);
    }

    /** `query_account`. */
    function QueryAccount(channelId: string): (r: Result<Option<string>, StdError>)
      reads this
      ensures r.Ok? <==> channelId in accounts
      ensures r.Ok? ==> r.value == Some(accounts[channelId])
    {
      if channelId in accounts then Ok(Some(accounts[channelId])) else Err(NotFound(ACCOUNTS_KEY))
    }

    /** `query_list_accounts`: every binding, in ascending channel order. */
    method QueryListAccounts() returns (r: seq<AccountInfo>)
      ensures |r| == |accounts|
      ensures forall i :: 0 <= i < |r| ==> r[i].channelId in accounts && r[i].account == accounts[r[i].channelId]
      ensures forall i, j :: 0 <= i < j < |r| ==> OrderedKeys.Less(r[i].channelId, r[j].channelId)
      ensures forall c :: c in accounts ==> exists i :: 0 <= i < |r| && r[i].channelId == c
    {
      var entries := OrderedKeys.SortedEntries(accounts);
      r := seq(|entries|, i requires 0 <= i < |entries| => AccountInfo(entries[i].1, entries[i].0));
      forall c | c in accounts
        ensures exists i :: 0 <= i < |r| && r[i].channelId == c
      {
        var i :| 0 <= i < |entries| && entries[i].0 == c;
        assert r[i].channelId == c;
      }
    }
  }

  // ---------------------------------------------------------------- packet flow

  /**
   * A dispatch packet end to end: the caller's sub-account runs the messages.
   * When it succeeds, RESULTS and the acknowledgement hold exactly one entry,
   * the data the account returned (empty when it returned none); when it
   * fails, nothing is kept and the account's error is reported.
   */
  lemma DispatchSelfCall(s: HostStore, host: string, caller: string, sender: string,
                         msgs: seq<CosmosMsg>, callbackId: Option<string>, chain: Chain)
    ensures var out := SelfCallOutcome(s, host, caller, Dispatch(sender, msgs, callbackId), chain);
            caller !in s.accounts ==> out == (s, SubErr(chain.errorText(Std(NotFound(ACCOUNTS_KEY)))))
    ensures var out := SelfCallOutcome(s, host, caller, Dispatch(sender, msgs, callbackId), chain);
            caller in s.accounts && chain.runAccount(s.accounts[caller], msgs).Err? ==>
              out == (s, SubErr(chain.runAccount(s.accounts[caller], msgs).error))
    ensures var out := SelfCallOutcome(s, host, caller, Dispatch(sender, msgs, callbackId), chain);
            caller in s.accounts && chain.runAccount(s.accounts[caller], msgs).Ok? ==>
              var d := chain.runAccount(s.accounts[caller], msgs).value.UnwrapOr(Raw([]));
              out == (s.(results := Some([d])), SubOk(Some(EncodedAck(Success(DispatchResponse([d]))))))
  {
    var packet := Dispatch(sender, msgs, callbackId);
    if caller in s.accounts {
      var account := s.accounts[caller];
      var s1 := s.(results := Some([]));
      assert ProcessIbcOutcome(s, host, host, caller, packet, chain)
          == Ok((s1, Response([DispatchMsg(account, msgs)], Some(EncodedAck(Success(DispatchResponse([])))))));
      var run := chain.runAccount(account, msgs);
      if run.Ok? {
        var d := run.value.UnwrapOr(Raw([]));
        assert [] + [d] == [d];
        assert ReplyOutcome(s1, Reply(RECEIVE_DISPATCH_ID, SubOk(run.value)), chain)
            == Ok((s.(results := Some([d])), Response([], Some(EncodedAck(Success(DispatchResponse([d])))))));
      }
    }
  }

  /**
   * A query packet end to end: nothing is written; the acknowledgement lists
   * the raw answers in order, or the call fails with the first query's error.
   */
  lemma QuerySelfCall(s: HostStore, host: string, caller: string, sender: string,
                      queries: seq<QueryRequest>, callbackId: Option<string>, chain: Chain)
    ensures SelfCallOutcome(s, host, caller, IbcQuery(sender, queries, callbackId), chain).0 == s
    ensures var results := QueryResults(queries, chain.rawQuery);
            results.Ok? ==> SelfCallOutcome(s, host, caller, IbcQuery(sender, queries, callbackId), chain).1
                            == SubOk(Some(QueryAck(results.value)))
    ensures var results := QueryResults(queries, chain.rawQuery);
            results.Err? ==> SelfCallOutcome(s, host, caller, IbcQuery(sender, queries, callbackId), chain).1
                             == SubErr(chain.errorText(results.error))
  {
  }

  /**
   * `reply_process_ibc` never fails on what a self-call yields: a failure
   * becomes an error acknowledgement, a success passes its data on.
   */
  lemma ProcessReplyAcknowledges(result: SubMsgResult)
    requires result.SubOk? ==> result.data.Some?
    ensures ReplyProcessIbc(result) == Ok(Response([], Some(AckOf(result))))
    ensures result.SubErr? ==> AckOf(result) == EncodedAck(Fail(result.error))
  {
  }

  /**
   * The first handshake on a fresh host: connecting stores the channel in
   * PENDING and the instantiate reply binds it, so the account list is that
   * one channel.
   */
  lemma FirstHandshakeBindsChannel(s: HostStore, channelId: string, result: SubMsgResult, chain: Chain, keys: seq<string>)
    requires s.accounts == map[]
    requires chain.parseInstantiate(result).Ok?
    requires chain.addrValidate(chain.parseInstantiate(result).value).Ok?
    ensures var out := InitCallbackOutcome(s.(pending := Some(channelId)), result, chain);
            && out.Ok?
            && out.value.0.accounts == map[channelId := chain.addrValidate(chain.parseInstantiate(result).value).value]
            && (OrderedKeys.Enumerates(keys, out.value.0.accounts.Keys) ==> keys == [channelId])
  {
    var out := InitCallbackOutcome(s.(pending := Some(channelId)), result, chain);
    assert out.value.0.accounts.Keys == {channelId};
    if OrderedKeys.Enumerates(keys, out.value.0.accounts.Keys) {
      OrderedKeys.EnumerationOfSingleton(keys, channelId);
    }
  }
}
