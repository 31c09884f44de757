/**
 * What the simple-ica controller and the simple-ica client have in common:
 * the account record they keep per channel, the IBC messages they emit, the
 * admin and channel guards in front of their handlers, and `send_funds`,
 * which the two contracts carry as identical copies.
 */
module ControllerCore {
  import opened Wrappers
  import opened IcaTypes

  /** Seconds a packet or transfer stays valid; the value lives outside the modelled files. */
  const PACKET_LIFETIME: nat := 3600

  const ACCOUNTS_KEY: string := "accounts"
  const CONFIG_KEY: string := "config"

  const ONLY_ADMIN_SET_ADMIN: string := "Only admin may set new admin"
  const ONLY_ADMIN_SEND: string := "Only admin may send messages"
  const MUST_SEND_COINS: string := "you must send the coins you wish to ibc transfer"
  const ONE_COIN_ONLY: string := "you can only ibc transfer one coin"
  const NO_REMOTE_ADDRESS: string := "We don't have the remote address for this channel"

  /** The record kept per channel; `remoteAddr` stays empty until the host has answered. */
  datatype AccountData = AccountData(lastUpdateTime: nat, remoteAddr: Option<string>, remoteBalance: seq<Coin>)

  /** One entry of `list_accounts`: the channel and its record. */
  datatype AccountInfo = AccountInfo(channelId: string, data: AccountData)

  /** The IBC messages the handlers emit; `P` is the contract's packet type, kept unencoded. */
  datatype IbcMsg<P> =
    | SendPacket(channelId: string, data: P, timeout: nat)
    | Transfer(channelId: string, toAddress: string, amount: Coin, timeout: nat)

  /** A handler's `Response`: the messages it emits (attributes are not modelled). */
  datatype Response<P> = Response(messages: seq<IbcMsg<P>>)

  /** The admin check in front of the guarded handlers. */
  function AuthorizeAdmin(sender: string, admin: string, refusal: string): (r: Result<(), StdError>)
    ensures r.Ok? <==> sender == admin
    ensures r.Err? ==> r.error == GenericErr(refusal)
  {
    if sender != admin then Err(GenericErr(refusal)) else Ok(())
  }

  /** `ACCOUNTS.load`: the registered-channel check. */
  function LoadAccount(accounts: map<string, AccountData>, channelId: string): (r: Result<AccountData, StdError>)
    ensures r.Ok? <==> channelId in accounts
    ensures r.Ok? ==> r.value == accounts[channelId]
    ensures r.Err? ==> r.error == NotFound(ACCOUNTS_KEY)
  {
    if channelId in accounts then Ok(accounts[channelId]) else Err(NotFound(ACCOUNTS_KEY))
  }

  /**
   * `execute_send_funds`, with no auth check: pop the last attached coin,
   * refuse when nothing or more than one coin was attached, and transfer
   * that coin to the remote account of `icaChannelId` over `transferChannelId`.
   */
  method SendFunds<P>(accounts: map<string, AccountData>, funds: seq<Coin>, icaChannelId: string,
                      transferChannelId: string, now: nat)
    returns (r: Result<Response<P>, StdError>)
    ensures funds == [] ==> r == Err(GenericErr(MUST_SEND_COINS))
    ensures |funds| > 1 ==> r == Err(GenericErr(ONE_COIN_ONLY))
    ensures |funds| == 1 && icaChannelId !in accounts ==> r == Err(NotFound(ACCOUNTS_KEY))
    ensures |funds| == 1 && icaChannelId in accounts && accounts[icaChannelId].remoteAddr.None? ==>
              r == Err(GenericErr(NO_REMOTE_ADDRESS))
    ensures r.Ok? <==> |funds| == 1 && icaChannelId in accounts && accounts[icaChannelId].remoteAddr.Some?
    ensures r.Ok? ==>
              r.value == Response([Transfer(transferChannelId, accounts[icaChannelId].remoteAddr.value, funds[0], now + PACKET_LIFETIME)])
  {
    var remaining := funds;
    if remaining == [] {
      return Err(GenericErr(MUST_SEND_COINS));
    }
    var amount := remaining[|remaining| - 1];
    remaining := remaining[..|remaining| - 1];
    if remaining != [] {
      return Err(GenericErr(ONE_COIN_ONLY));
    }
    var data :- LoadAccount(accounts, icaChannelId);
    if data.remoteAddr.None? {
      return Err(GenericErr(NO_REMOTE_ADDRESS));
    }
    r := Ok(Response([Transfer(transferChannelId, data.remoteAddr.value, amount, now + PACKET_LIFETIME)]));
  }
}
