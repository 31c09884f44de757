/**
 * The callback capturer: a contract that drives a simple-ica controller on
 * its admin's behalf, asking for a callback under a chosen id, and keeps the
 * acknowledgement each callback brings, keyed by that id.
 */
module Capturer {
  import opened Wrappers
  import opened IcaTypes

  const RESULTS_KEY: string := "results"

  datatype ContractError = Std(std: StdError) | Unauthorized

  /** The controller's execute messages, as this contract builds them. */
  datatype ControllerExecuteMsg =
    | SendMsgs(channelId: string, msgs: seq<CosmosMsg>, callbackId: Option<string>)
    | IbcQuery(channelId: string, queries: seq<QueryRequest>, callbackId: Option<string>)
    | CheckRemoteBalance(channelId: string)
    | SendFunds(icaChannelId: string, transferChannelId: string)

  /** A `WasmMsg::Execute` to the controller, its payload kept unencoded. */
  datatype WasmExecute = WasmExecute(contract: string, msg: ControllerExecuteMsg, funds: seq<Coin>)

  datatype Response = Response(messages: seq<WasmExecute>)

  /** What a callback delivers: the id chosen when the request was sent, and the acknowledgement. */
  datatype ReceiveIbcResponseMsg = ReceiveIbcResponseMsg(id: string, msg: StdAck)

  datatype ExecuteMsg =
    | SendMsgs(channelId: string, msgs: seq<CosmosMsg>, callbackId: string)
    | IbcQuery(channelId: string, queries: seq<QueryRequest>, callbackId: string)
    | CheckRemoteBalance(channelId: string)
    | SendFunds(icaChannelId: string, transferChannelId: string)
    | ReceiveIbcResponse(resp: ReceiveIbcResponseMsg)

  /**
   * CONFIG (admin and controller, written once by `instantiate`) and
   * RESULTS (callback id to acknowledgement).
   */
  class CallbackCapturer {
    const admin: string
    const controller: string
    var results: map<string, StdAck>

    constructor (admin: string, controller: string)
      ensures this.admin == admin && this.controller == controller && results == map[]
    {
      this.admin := admin;
      this.controller := controller;
      results := map[];
    }

    /** `instantiate`: the sender is the admin; the controller address must validate. */
    static method Instantiate(sender: string, simpleIcaController: string, addrValidate: string -> Result<string, StdError>)
      returns (r: Result<CallbackCapturer, StdError>)
      ensures r.Ok? <==> addrValidate(simpleIcaController).Ok?
      ensures r.Err? ==> r.error == addrValidate(simpleIcaController).error
      ensures r.Ok? ==> && fresh(r.value)
                        && r.value.admin == sender
                        && r.value.controller == addrValidate(simpleIcaController).value
                        && r.value.results == map[]
    {
      var controller := addrValidate(simpleIcaController);
      if controller.Err? {
        return Err(controller.error);
      }
      var c := new CallbackCapturer(sender, controller.value);
      r := Ok(c);
    }

    /** `execute_send_msgs`: admin only; asks the controller for a callback under `callbackId`. */
    function SendMsgs(sender: string, channelId: string, msgs: seq<CosmosMsg>, callbackId: string)
      : (r: Result<Response, ContractError>)
      ensures r.Ok? <==> sender == admin
      ensures r.Err? ==> r.error == Unauthorized
      ensures r.Ok? ==> r.value.messages == [WasmExecute(controller, ControllerExecuteMsg.SendMsgs(channelId, msgs, Some(callbackId)), [])]
    {
      if sender != admin then Err(Unauthorized)
      else Ok(Response([WasmExecute(controller, ControllerExecuteMsg.SendMsgs(channelId, msgs, Some(callbackId)), [])]))
    }

    /** `execute_ibc_query`: admin only; asks the controller for a callback under `callbackId`. */
    function IbcQuery(sender: string, channelId: string, queries: seq<QueryRequest>, callbackId: string)
      : (r: Result<Response, ContractError>)
      ensures r.Ok? <==> sender == admin
      ensures r.Err? ==> r.error == Unauthorized
      ensures r.Ok? ==> r.value.messages == [WasmExecute(controller, ControllerExecuteMsg.IbcQuery(channelId, queries, Some(callbackId)), [])]
    {
      if sender != admin then Err(Unauthorized)
      else Ok(Response([WasmExecute(controller, ControllerExecuteMsg.IbcQuery(channelId, queries, Some(callbackId)), [])]))
    }

    /** `execute_check_remote_balance`: admin only. */
    function CheckRemoteBalance(sender: string, channelId: string): (r: Result<Response, ContractError>)
      ensures r.Ok? <==> sender == admin
      ensures r.Err? ==> r.error == Unauthorized
      ensures r.Ok? ==> r.value.messages == [WasmExecute(controller, ControllerExecuteMsg.CheckRemoteBalance(channelId), [])]
    {
      if sender != admin then Err(Unauthorized)
      else Ok(Response([WasmExecute(controller, ControllerExecuteMsg.CheckRemoteBalance(channelId), [])]))
    }

    /** `execute_send_funds`: admin only; the coins the caller attached travel on to the controller. */
    function SendFunds(sender: string, funds: seq<Coin>, icaChannelId: string, transferChannelId: string)
      : (r: Result<Response, ContractError>)
      ensures r.Ok? <==> sender == admin
      ensures r.Err? ==> r.error == Unauthorized
      ensures r.Ok? ==> r.value.messages == [WasmExecute(controller, ControllerExecuteMsg.SendFunds(icaChannelId, transferChannelId), funds)]
    {
      if sender != admin then Err(Unauthorized)
      else Ok(Response([WasmExecute(controller, ControllerExecuteMsg.SendFunds(icaChannelId, transferChannelId), funds)]))
    }

    /** `execute_receive_ibc_response`: only the controller may deliver; the ack replaces any earlier one under its id. */
    method ReceiveIbcResponse(sender: string, resp: ReceiveIbcResponseMsg) returns (r: Result<Response, ContractError>)
      modifies this`results
      ensures r.Ok? <==> sender == controller
      ensures r.Err? ==> r.error == Unauthorized && results == old(results)
      ensures r.Ok? ==> results == old(results)[resp.id := resp.msg] && r.value == Response([])
    {
      if sender != controller {
        return Err(Unauthorized);
      }
      results := results[resp.id := resp.msg];
      r := Ok(Response([]));
    }

    /** `execute`: only a callback from the controller writes RESULTS. */
    method Execute(sender: string, funds: seq<Coin>, msg: ExecuteMsg) returns (r: Result<Response, ContractError>)
      modifies this`results
      ensures !msg.ReceiveIbcResponse? ==> results == old(results)
      ensures msg.ReceiveIbcResponse? && sender != controller ==> results == old(results)
      ensures r.Err? ==> r.error == Unauthorized
    {
      match msg {
        case SendMsgs(channelId, msgs, callbackId) => r := SendMsgs(sender, channelId, msgs, callbackId);
        case IbcQuery(channelId, queries, callbackId) => r := IbcQuery(sender, channelId, queries, callbackId);
        case CheckRemoteBalance(channelId) => r := CheckRemoteBalance(sender, channelId);
        case SendFunds(icaChannelId, transferChannelId) => r := SendFunds(sender, funds, icaChannelId, transferChannelId);
        case ReceiveIbcResponse(resp) => r := ReceiveIbcResponse(sender, resp);
      }
    }

    /** `query_result`: the ack stored under `id`, failing while none has arrived. */
    function QueryResult(id: string): (r: Result<StdAck, StdError>)
      reads this
      ensures r.Ok? <==> id in results
      ensures r.Ok? ==> r.value == results[id]
      ensures r.Err? ==> r.error == NotFound(RESULTS_KEY)
    {
      if id in results then Ok(results[id]) else Err(NotFound(RESULTS_KEY))
    }

    /** `query_admin`. */
    function QueryAdmin(): (r: string)
      ensures r == admin
    {
      admin
    }
  }
}
