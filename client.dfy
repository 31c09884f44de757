/**
 * The simple-ica client: the controller's twin, whose packets also name the
 * caller as `sender` (the packet shape the host decodes), and which keeps
 * the latest query result per channel. Only `update_admin` writes storage.
 */
module Client {
  import opened Wrappers
  import opened IcaTypes
  import opened ControllerCore
  import OrderedKeys

  const LATEST_QUERIES_KEY: string := "querys"

  datatype ExecuteMsg =
    | UpdateAdmin(newAdmin: string)
    | SendMsgs(channelId: string, msgs: seq<CosmosMsg>, callbackId: Option<string>)
    | CheckRemoteBalance(channelId: string)
    | IbcQuery(channelId: string, queries: seq<QueryRequest>, callbackId: Option<string>)
    | SendFunds(icaChannelId: string, transferChannelId: string)

  /** The block context and the caller's `MessageInfo` of one execute. */
  datatype Env = Env(now: nat, sender: string, funds: seq<Coin>, addrValidate: string -> Result<string, StdError>)

  /** What LATEST_QUERIES holds per channel: when the answer came, and the acknowledgement itself. */
  datatype LatestQueryResponse = LatestQueryResponse(lastUpdateTime: nat, response: Bytes)

  /**
   * CONFIG (the admin), ACCOUNTS and LATEST_QUERIES. The last two are filled
   * by the IBC handlers, which are outside this model.
   */
  class ClientContract {
    var admin: string
    var accounts: map<string, AccountData>
    var latestQueries: map<string, LatestQueryResponse>

    /** `instantiate`: the instantiator becomes the admin. */
    constructor (sender: string)
      ensures QueryAdmin() == sender
      ensures accounts == map[] && latestQueries == map[]
    {
      admin := sender;
      accounts := map[];
      latestQueries := map[];
    }

    /** `execute_update_admin`: only the admin may name a new, validated admin. */
    method UpdateAdmin(sender: string, newAdmin: string, addrValidate: string -> Result<string, StdError>)
      returns (r: Result<Response<PacketMsg>, StdError>)
      modifies this`admin
      ensures r.Ok? <==> sender == old(admin) && addrValidate(newAdmin).Ok?
      ensures sender != old(admin) ==> r == Err(GenericErr(ONLY_ADMIN_SET_ADMIN))
      ensures sender == old(admin) && addrValidate(newAdmin).Err? ==> r == Err(addrValidate(newAdmin).error)
      ensures r.Ok? ==> admin == addrValidate(newAdmin).value && r.value == Response([])
      ensures r.Err? ==> admin == old(admin)
    {
      if sender != admin {
        return Err(GenericErr(ONLY_ADMIN_SET_ADMIN));
      }
      var validated := addrValidate(newAdmin);
      if validated.Err? {
        return Err(validated.error);
      }
      admin := validated.value;
      r := Ok(Response([]));
    }

    /** `execute_send_msgs`: admin only, to a registered channel; the packet names the caller. */
    function SendMsgs(sender: string, channelId: string, msgs: seq<CosmosMsg>, callbackId: Option<string>, now: nat)
      : (r: Result<Response<PacketMsg>, StdError>)
      reads this
      ensures r.Ok? <==> sender == admin && channelId in accounts
      ensures sender != admin ==> r == Err(GenericErr(ONLY_ADMIN_SEND))
      ensures sender == admin && channelId !in accounts ==> r == Err(NotFound(ACCOUNTS_KEY))
      ensures r.Ok? ==> r.value.messages == [SendPacket(channelId, PacketMsg.Dispatch(sender, msgs, callbackId), now + PACKET_LIFETIME)]
    {
      var _ :- AuthorizeAdmin(sender, admin, ONLY_ADMIN_SEND);
      var _ :- LoadAccount(accounts, channelId);
      Ok(Response([SendPacket(channelId, PacketMsg.Dispatch(sender, msgs, callbackId), now + PACKET_LIFETIME)]))
    }

    /** `execute_ibc_query`: no auth check and no channel check, so it reads no state; the packet names the caller. */
    function IbcQuery(sender: string, channelId: string, queries: seq<QueryRequest>, callbackId: Option<string>, now: nat)
      : (r: Response<PacketMsg>)
      ensures |r.messages| == 1 && r.messages[0].SendPacket?
      ensures r.messages[0].channelId == channelId && r.messages[0].timeout == now + PACKET_LIFETIME
      ensures r.messages[0].data == PacketMsg.IbcQuery(sender, queries, callbackId)
    {
      Response([SendPacket(channelId, PacketMsg.IbcQuery(sender, queries, callbackId), now + PACKET_LIFETIME)])
    }

    /** `execute_check_remote_balance`: the same guards as `SendMsgs`, and a `Balances` packet. */
    function CheckRemoteBalance(sender: string, channelId: string, now: nat): (r: Result<Response<PacketMsg>, StdError>)
      reads this
      ensures r.Ok? <==> sender == admin && channelId in accounts
      ensures sender != admin ==> r == Err(GenericErr(ONLY_ADMIN_SEND))
      ensures sender == admin && channelId !in accounts ==> r == Err(NotFound(ACCOUNTS_KEY))
      ensures r.Ok? ==> r.value.messages == [SendPacket(channelId, PacketMsg.Balances, now + PACKET_LIFETIME)]
    {
      var _ :- AuthorizeAdmin(sender, admin, ONLY_ADMIN_SEND);
      var _ :- LoadAccount(accounts, channelId);
      Ok(Response([SendPacket(channelId, PacketMsg.Balances, now + PACKET_LIFETIME)]))
    }

    /** `execute_send_funds`: anyone may call it; exactly one coin, to a known remote address. */
    method SendFunds(funds: seq<Coin>, icaChannelId: string, transferChannelId: string, now: nat)
      returns (r: Result<Response<PacketMsg>, StdError>)
      ensures funds == [] ==> r == Err(GenericErr(MUST_SEND_COINS))
      ensures |funds| > 1 ==> r == Err(GenericErr(ONE_COIN_ONLY))
      ensures |funds| == 1 && icaChannelId !in accounts ==> r == Err(NotFound(ACCOUNTS_KEY))
      ensures |funds| == 1 && icaChannelId in accounts && accounts[icaChannelId].remoteAddr.None? ==>
                r == Err(GenericErr(NO_REMOTE_ADDRESS))
      ensures r.Ok? <==> |funds| == 1 && icaChannelId in accounts && accounts[icaChannelId].remoteAddr.Some?
      ensures r.Ok? ==> r.value == Response([Transfer(transferChannelId, accounts[icaChannelId].remoteAddr.value,
                                                      funds[0], now + PACKET_LIFETIME)])
    {
      r := ControllerCore.SendFunds(accounts, funds, icaChannelId, transferChannelId, now);
    }

    /**
     * `execute`: the five handlers. Whatever the message, ACCOUNTS is left
     * alone, and only `UpdateAdmin` can change the admin.
     */
    method Execute(env: Env, msg: ExecuteMsg) returns (r: Result<Response<PacketMsg>, StdError>)
      modifies this
      ensures accounts == old(accounts) && latestQueries == old(latestQueries)
      ensures !msg.UpdateAdmin? ==> admin == old(admin)
      ensures r.Ok? && msg.UpdateAdmin? ==> old(admin) == env.sender
    {
      match msg {
        case UpdateAdmin(newAdmin) => r := UpdateAdmin(env.sender, newAdmin, env.addrValidate);
        case SendMsgs(channelId, msgs, callbackId) => r := SendMsgs(env.sender, channelId, msgs, callbackId, env.now);
        case CheckRemoteBalance(channelId) => r := CheckRemoteBalance(env.sender, channelId, env.now);
        case IbcQuery(channelId, queries, callbackId) => r := Ok(IbcQuery(env.sender, channelId, queries, callbackId, env.now));
        case SendFunds(icaChannelId, transferChannelId) =>
          r := SendFunds(env.funds, icaChannelId, transferChannelId, env.now);
      }
    }

    /** `query_account`. */
    function QueryAccount(channelId: string): (r: Result<AccountData, StdError>)
      reads this
      ensures r.Ok? <==> channelId in accounts
      ensures r.Ok? ==> r.value == accounts[channelId]
    {
      LoadAccount(accounts, channelId)
    }

    /** `query_latest_ibc_query_result`: a per-channel lookup that fails when nothing was stored. */
    function QueryLatestIbcQueryResult(channelId: string): (r: Result<LatestQueryResponse, StdError>)
      reads this
      ensures r.Ok? <==> channelId in latestQueries
      ensures r.Ok? ==> r.value == latestQueries[channelId]
      ensures r.Err? ==> r.error == NotFound(LATEST_QUERIES_KEY)
    {
      if channelId in latestQueries then Ok(latestQueries[channelId]) else Err(NotFound(LATEST_QUERIES_KEY))
    }

    /** `query_list_accounts`: every record, in ascending channel order. */
    method ListAccounts() returns (r: seq<AccountInfo>)
      ensures |r| == |accounts|
      ensures forall i :: 0 <= i < |r| ==> r[i].channelId in accounts && r[i].data == accounts[r[i].channelId]
      ensures forall i, j :: 0 <= i < j < |r| ==> OrderedKeys.Less(r[i].channelId, r[j].channelId)
      ensures forall c :: c in accounts ==> exists i :: 0 <= i < |r| && r[i].channelId == c
    {
      var entries := OrderedKeys.SortedEntries(accounts);
      r := seq(|entries|, i requires 0 <= i < |entries| => AccountInfo(entries[i].0, entries[i].1));
      forall c | c in accounts
        ensures exists i :: 0 <= i < |r| && r[i].channelId == c
      {
        var i :| 0 <= i < |entries| && entries[i].0 == c;
        assert r[i].channelId == c;
      }
    }

    /** `query_admin`. */
    function QueryAdmin(): (r: string)
      reads this
      ensures r == admin
    {
      admin
    }
  }
}
