/**
 * The simple-ica controller: the contract on the home chain that builds the
 * packets sent to a host. Only `update_admin` writes storage; every other
 * handler reads CONFIG and ACCOUNTS and emits one IBC message.
 */
module Controller {
  import opened Wrappers
  import opened IcaTypes
  import opened ControllerCore
  import OrderedKeys

  /** The packet this controller sends; unlike the client's, it carries no sender. */
  datatype PacketMsg =
    | Dispatch(msgs: seq<CosmosMsg>, callback: Option<string>)
    | IbcQuery(queries: seq<QueryRequest>, callback: Option<string>)
    | Balances

  datatype ExecuteMsg =
    | UpdateAdmin(newAdmin: string)
    | SendMsgs(channelId: string, msgs: seq<CosmosMsg>, callback: Option<string>)
    | CheckRemoteBalance(channelId: string)
    | IbcQuery(channelId: string, queries: seq<QueryRequest>, callback: Option<string>)
    | SendFunds(reflectChannelId: string, transferChannelId: string)

  /** The block context and the caller's `MessageInfo` of one execute. */
  datatype Env = Env(now: nat, sender: string, funds: seq<Coin>, addrValidate: string -> Result<string, StdError>)

  /** CONFIG (the admin) and ACCOUNTS. ACCOUNTS is filled by the IBC handlers, which are outside this model. */
  class ControllerContract {
    var admin: string
    var accounts: map<string, AccountData>

    /** `instantiate`: the instantiator becomes the admin. */
    constructor (sender: string)
      ensures QueryAdmin() == sender
      ensures accounts == map[]
    {
      admin := sender;
      accounts := map[];
    }

    /** `execute_update_admin`: only the admin may name a new, validated admin. */
    method UpdateAdmin(sender: string, newAdmin: string, addrValidate: string -> Result<string, StdError>)
      returns (r: Result<Response<PacketMsg>, StdError>)
      modifies this`admin
      ensures r.Ok? <==> sender == old(admin) && addrValidate(newAdmin).Ok?
      ensures sender != old(admin) ==> r == Err(GenericErr(ONLY_ADMIN_SET_ADMIN))
      ensures sender == old(admin) && addrValidate(newAdmin).Err? ==> r == Err(addrValidate(newAdmin).error)
      ensures r.Ok? ==> admin == addrValidate(newAdmin).value && r.value == Response([])
      ensures r.Err? ==> admin == old(admin)
    {
      if sender != admin {
        return Err(GenericErr(ONLY_ADMIN_SET_ADMIN));
      }
      var validated := addrValidate(newAdmin);
      if validated.Err? {
        return Err(validated.error);
      }
      admin := validated.value;
      r := Ok(Response([]));
    }

    /** `execute_send_msgs`: admin only, to a registered channel. */
    function SendMsgs(sender: string, channelId: string, msgs: seq<CosmosMsg>, callback: Option<string>, now: nat)
      : (r: Result<Response<PacketMsg>, StdError>)
      reads this
      ensures r.Ok? <==> sender == admin && channelId in accounts
      ensures sender != admin ==> r == Err(GenericErr(ONLY_ADMIN_SEND))
      ensures sender == admin && channelId !in accounts ==> r == Err(NotFound(ACCOUNTS_KEY))
      ensures r.Ok? ==> r.value.messages == [SendPacket(channelId, PacketMsg.Dispatch(msgs, callback), now + PACKET_LIFETIME)]
    {
      var _ :- AuthorizeAdmin(sender, admin, ONLY_ADMIN_SEND);
      var _ :- LoadAccount(accounts, channelId);
      Ok(Response([SendPacket(channelId, PacketMsg.Dispatch(msgs, callback), now + PACKET_LIFETIME)]))
    }

    /** `execute_ibc_query`: no auth check and no channel check, so it reads no state. */
    function IbcQuery(channelId: string, queries: seq<QueryRequest>, callback: Option<string>, now: nat)
      : (r: Response<PacketMsg>)
      ensures |r.messages| == 1 && r.messages[0].SendPacket?
      ensures r.messages[0].channelId == channelId && r.messages[0].timeout == now + PACKET_LIFETIME
      ensures r.messages[0].data == PacketMsg.IbcQuery(queries, callback)
    {
      Response([SendPacket(channelId, PacketMsg.IbcQuery(queries, callback), now + PACKET_LIFETIME)])
    }

    /** `execute_check_remote_balance`: the same guards as `SendMsgs`, and a `Balances` packet. */
    function CheckRemoteBalance(sender: string, channelId: string, now: nat): (r: Result<Response<PacketMsg>, StdError>)
      reads this
      ensures r.Ok? <==> sender == admin && channelId in accounts
      ensures sender != admin ==> r == Err(GenericErr(ONLY_ADMIN_SEND))
      ensures sender == admin && channelId !in accounts ==> r == Err(NotFound(ACCOUNTS_KEY))
      ensures r.Ok? ==> r.value.messages == [SendPacket(channelId, PacketMsg.Balances, now + PACKET_LIFETIME)]
    {
      var _ :- AuthorizeAdmin(sender, admin, ONLY_ADMIN_SEND);
      var _ :- LoadAccount(accounts, channelId);
      Ok(Response([SendPacket(channelId, PacketMsg.Balances, now + PACKET_LIFETIME)]))
    }

    /** `execute_send_funds`: anyone may call it; exactly one coin, to a known remote address. */
    method SendFunds(funds: seq<Coin>, reflectChannelId: string, transferChannelId: string, now: nat)
      returns (r: Result<Response<PacketMsg>, StdError>)
      ensures funds == [] ==> r == Err(GenericErr(MUST_SEND_COINS))
      ensures |funds| > 1 ==> r == Err(GenericErr(ONE_COIN_ONLY))
      ensures |funds| == 1 && reflectChannelId !in accounts ==> r == Err(NotFound(ACCOUNTS_KEY))
      ensures |funds| == 1 && reflectChannelId in accounts && accounts[reflectChannelId].remoteAddr.None? ==>
                r == Err(GenericErr(NO_REMOTE_ADDRESS))
      ensures r.Ok? <==> |funds| == 1 && reflectChannelId in accounts && accounts[reflectChannelId].remoteAddr.Some?
      ensures r.Ok? ==> r.value == Response([Transfer(transferChannelId, accounts[reflectChannelId].remoteAddr.value,
                                                      funds[0], now + PACKET_LIFETIME)])
    {
      r := ControllerCore.SendFunds(accounts, funds, reflectChannelId, transferChannelId, now);
    }

    /**
     * `execute`: the five handlers. Whatever the message, ACCOUNTS is left
     * alone, and only `UpdateAdmin` can change the admin.
     */
    method Execute(env: Env, msg: ExecuteMsg) returns (r: Result<Response<PacketMsg>, StdError>)
      modifies this
      ensures accounts == old(accounts)
      ensures !msg.UpdateAdmin? ==> admin == old(admin)
      ensures r.Ok? && msg.UpdateAdmin? ==> old(admin) == env.sender
    {
      match msg {
        case UpdateAdmin(newAdmin) => r := UpdateAdmin(env.sender, newAdmin, env.addrValidate);
        case SendMsgs(channelId, msgs, callback) => r := SendMsgs(env.sender, channelId, msgs, callback, env.now);
        case CheckRemoteBalance(channelId) => r := CheckRemoteBalance(env.sender, channelId, env.now);
        case IbcQuery(channelId, queries, callback) => r := Ok(IbcQuery(channelId, queries, callback, env.now));
        case SendFunds(reflectChannelId, transferChannelId) =>
          r := SendFunds(env.funds, reflectChannelId, transferChannelId, env.now);
      }
    }

    /** `query_account`. */
    function QueryAccount(channelId: string): (r: Result<AccountData, StdError>)
      reads this
      ensures r.Ok? <==> channelId in accounts
      ensures r.Ok? ==> r.value == accounts[channelId]
    {
      LoadAccount(accounts, channelId)
    }

    /** `query_list_accounts`: every record, in ascending channel order. */
    method ListAccounts() returns (r: seq<AccountInfo>)
      ensures |r| == |accounts|
      ensures forall i :: 0 <= i < |r| ==> r[i].channelId in accounts && r[i].data == accounts[r[i].channelId]
      ensures forall i, j :: 0 <= i < j < |r| ==> OrderedKeys.Less(r[i].channelId, r[j].channelId)
      ensures forall c :: c in accounts ==> exists i :: 0 <= i < |r| && r[i].channelId == c
    {
      var entries := OrderedKeys.SortedEntries(accounts);
      r := seq(|entries|, i requires 0 <= i < |entries| => AccountInfo(entries[i].0, entries[i].1));
      forall c | c in accounts
        ensures exists i :: 0 <= i < |r| && r[i].channelId == c
      {
        var i :| 0 <= i < |entries| && entries[i].0 == c;
        assert r[i].channelId == c;
      }
    }

    /** `query_admin`. */
    function QueryAdmin(): (r: string)
      reads this
      ensures r == admin
    {
      admin
    }
  }
}
