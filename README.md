# simple-ica in Dafny

This is a model of the simple interchain-account (simple-ica) contracts of cw-ibc-demo. It covers four CosmWasm contracts:

- **The host** (`module Host`). It runs on the remote chain.
  - The channel handshake binds one cw1-whitelist sub-account to every channel. The bindings are kept in the PENDING and ACCOUNTS stores.
  - A received packet is handled in two steps. First come cheap pre-checks. Then a self-call with `reply_always` does the real work.
  - A failed packet therefore yields an error acknowledgement and leaves no writes behind.
  - Replies are routed by three fixed ids. They append dispatch results to RESULTS, finish the handshake, or turn the self-call's outcome into the acknowledgement.
- **The controller and the client** (`module Controller`, `module Client`, sharing `module ControllerCore`). They run on the home chain.
  - They are guard-then-emit handlers: an admin check, then a registered-channel check, then one `SendPacket` or `Transfer` whose timeout is block time plus `PACKET_LIFETIME`.
  - The client's packets also name the caller as `sender`.
- **The callback capturer** (`module Capturer`). It forwards admin-only requests to the controller with a callback id. It stores the acknowledgement each callback brings, and accepts callbacks only from the controller.

Shared modules:

- `Wrappers` holds `Option` and `Result`.
- `IcaTypes` holds the packet and acknowledgement vocabulary.
- `OrderedKeys` holds the byte-wise string order that storage ranges use, and a selection method that lists a map in ascending key order. It also proves that such a listing is unique.

## How the runtime is modelled

- **State.** Every contract is a `class` whose fields are its stores.
- **Rollback.** A host entry point that returns an error has its writes discarded by the runtime. The host's methods take a snapshot of the state and `Restore` it on those paths.
- **Specification functions.** Functions on the `HostStore` value specify each step:
  - `ProcessIbcOutcome`, `DispatchCallbackOutcome`, `InitCallbackOutcome` and `ReplyOutcome` specify one entry point each.
  - `SelfCallOutcome` specifies the whole self-call: `process_ibc_packet`, the sub-account run and the dispatch reply, which commit or roll back together.
  - Every host method is tied to its function by its postconditions.
- **Oracles.** `Chain` supplies what the chain and its libraries answer, as total functions:
  - raw queries and bank balances;
  - JSON decoding of packet data;
  - `parse_reply_instantiate_data` and `addr_validate`;
  - the outcome of running messages on a sub-account;
  - the error text the runtime hands to a reply.
- **Serialized data.** Data is `Binary = Raw(bytes) | EncodedAck(StdAck)`. Data passed along verbatim stays opaque, while acknowledgements built by the host keep their structure.
- **Time.** Block time is a parameter `now`, in seconds.
- **Panics.** An `unwrap` that fails is `ContractError.Panic`. It aborts the call like an error.

Where the repository's files disagree with each other, the model follows the code that runs:

- The host `Config` field is `cw1CodeId`, as `contract.rs` uses it.
- `RESULTS`, `ContractError::OnlySelfCall` and the handshake errors are added. The host's `contract.rs` uses them, but its `state.rs` and `error.rs` do not define them.
- Packets have the four-variant shape of `client_ibc_msg.rs`. The controller's packet is the shape its `contract.rs` builds (`Dispatch { msgs, callback }`, `IbcQuery { msgs, callback }`, `Balances`), not the three-variant `ibc_msg.rs`.
- `ibc_channel_connect` overwrites PENDING even while a registration is pending.

## Model

| member | source | states |
|---|---|---|
| Host.CheckOrder | contracts/simple-ica-host/src/contract.rs:94 | An order is accepted exactly when it is the application order `APP_ORDER` (unordered). Any other order fails with `InvalidChannelOrder`. |
| Host.CheckVersion | contracts/simple-ica-host/src/contract.rs:97-99 | A version is accepted exactly when it is `IBC_APP_VERSION` ("simple-ica-v2"). Any other fails with `InvalidChannelVersion`, which names the expected version. |
| Host.ChannelOpen | contracts/simple-ica-host/src/contract.rs:87-105 | The handshake is accepted exactly when the order is unordered and any counterparty version is "simple-ica-v2". The answer is always the host's own version. A wrong order and a wrong version give their own errors. |
| Host.ConnectMsg | contracts/simple-ica-host/src/contract.rs:114-131 | The connect submessage has id 7890 and replies on success. It instantiates the configured code with no admin, no funds, the host as the only and immutable whitelist admin, and a label that ends in the channel id. |
| Host.SweepMsgs | contracts/simple-ica-host/src/contract.rs:153-165 | Close emits no message when the balance is empty. Otherwise it emits exactly one, which makes the sub-account send the whole balance to the host. |
| Host.ReplyRoute | contracts/simple-ica-host/src/contract.rs:180-187 | A reply is routed exactly when its id is 1234, 7890 or 5432. Any other id is `InvalidReplyId`. |
| Host.ReplyProcessIbc | contracts/simple-ica-host/src/contract.rs:220-228 | A failed self-call becomes data `Fail(error)`. A successful one passes its data verbatim. It errs only for a success that carries no data. |
| Host.DispatchCallbackOutcome | contracts/simple-ica-host/src/contract.rs:189-198 | It fails when RESULTS is absent and panics on an error reply. Otherwise it appends the reply's data, or empty data, to RESULTS and acknowledges success with the accumulated list. |
| Host.InitCallbackOutcome | contracts/simple-ica-host/src/contract.rs:200-217 | It succeeds exactly when PENDING is set, the reply parses, the address validates and the channel is not yet bound. A bound channel gives `ChannelAlreadyRegistered`. On success PENDING is cleared, only that channel is bound, and the other stores are untouched. |
| Host.ReplyOutcome | contracts/simple-ica-host/src/contract.rs:180-187 | An unknown id is fatal. The process reply writes nothing. |
| Host.UnparsedQuery | contracts/simple-ica-host/src/contract.rs:299-313 | A raw query succeeds exactly when the querier answers. The answer is returned as raw data. A system error becomes the generic error "Querier system error: " followed by its text, and a contract error becomes "Querier contract error: " followed by its text. |
| Host.QueryResults | contracts/simple-ica-host/src/contract.rs:316-329 | It succeeds exactly when every query is answered, and then gives one raw answer per query, in order. Otherwise it fails with the error of the first query that fails. |
| Host.ReceiveQuery | contracts/simple-ica-host/src/contract.rs:316-329 | The loop with early exit computes exactly `QueryResults`. Its success data is the query acknowledgement of those results. |
| Host.ReceiveWhoAmI | contracts/simple-ica-host/src/contract.rs:332-342 | It succeeds exactly for a bound channel, and acknowledges that channel's account. |
| Host.ReceiveBalances | contracts/simple-ica-host/src/contract.rs:345-357 | It succeeds exactly for a bound channel whose balance can be read, and acknowledges the account and its balances. |
| Host.ReceiveDispatchOutcome | contracts/simple-ica-host/src/contract.rs:360-385 | It succeeds exactly for a bound channel. RESULTS is reset to empty, one submessage runs the messages on the account with id 1234 and reply-on-success, and the provisional ack is success with no results. |
| Host.ProcessIbcOutcome | contracts/simple-ica-host/src/contract.rs:277-297 | Any sender but the contract itself gets `OnlySelfCall`. Every success carries data. Only a dispatch writes, and it emits exactly the dispatch submessage. |
| Host.SelfCallOutcome | contracts/simple-ica-host/src/contract.rs:231-245 | A failed self-call leaves the store as it was. A successful one always carries data. Packets other than dispatch never write. |
| Host.HostContract.constructor | contracts/simple-ica-host/src/contract.rs:27-40 | Instantiate stores the code id, with nothing pending, no accounts and no results. |
| Host.HostContract.ChannelConnect | contracts/simple-ica-host/src/contract.rs:109-139 | PENDING becomes the channel, overwriting any earlier value, and nothing else changes. The response is the single connect submessage. |
| Host.HostContract.ChannelClose | contracts/simple-ica-host/src/contract.rs:144-177 | It succeeds exactly for a bound channel whose balance can be read. An unbound channel gives not-found. On success only that binding is removed and the sweep is emitted. On failure nothing changes. |
| Host.HostContract.OnReply | contracts/simple-ica-host/src/contract.rs:180-187 | The new state and the result are those of `ReplyOutcome`. A failed reply leaves the state unchanged. |
| Host.HostContract.ReplyDispatchCallback | contracts/simple-ica-host/src/contract.rs:189-198 | The load, push and save steps compute exactly `DispatchCallbackOutcome`. |
| Host.HostContract.ReplyInitCallback | contracts/simple-ica-host/src/contract.rs:200-217 | The remove, parse, validate, check and save steps compute exactly `InitCallbackOutcome`. |
| Host.HostContract.PacketReceive | contracts/simple-ica-host/src/contract.rs:246-275 | It fails outright for an unbound channel or an undecodable packet, and writes nothing. Otherwise it returns an empty ack and one reply-always self-execute, with id 5432, carrying the channel and the decoded packet. |
| Host.HostContract.Execute | contracts/simple-ica-host/src/contract.rs:277-297 | The new state and the result are those of `ProcessIbcOutcome`. On failure nothing changes. |
| Host.HostContract.ReceiveDispatch | contracts/simple-ica-host/src/contract.rs:360-385 | It computes exactly `ReceiveDispatchOutcome`. On failure nothing changes. |
| Host.HostContract.RunSelfCall | contracts/simple-ica-host/src/contract.rs:231-245 | The self-call with its submessage and reply, committed or rolled back as one unit, yields exactly `SelfCallOutcome`. |
| Host.HostContract.DeliverPacket | contracts/simple-ica-host/src/contract.rs:246-275 | A failed pre-check aborts the packet with its error and changes nothing. Otherwise the state is that of the self-call, and the ack is the self-call's data, or `Fail(error)` when it failed. |
| Host.HostContract.QueryAccount | contracts/simple-ica-host/src/contract.rs:64-69 | It succeeds exactly for a bound channel, and returns its account. |
| Host.HostContract.QueryListAccounts | contracts/simple-ica-host/src/contract.rs:71-83 | It returns one entry per binding, each with its account, in strictly ascending channel order, covering every channel. |
| Host.DispatchSelfCall | tests/src/cosmwasm.spec.ts:282-323 | For a dispatch: an unbound channel fails, and a failing sub-account leaves the store untouched and reports its error. A successful run leaves RESULTS and the ack holding exactly one entry, whatever the number of messages. That entry is the account's data, or empty data when the account returns none. |
| Host.QuerySelfCall | tests/src/cosmwasm.spec.ts:366-371 | A query packet writes nothing. It acks the answers in request order, or fails with the first failing query's error. |
| Host.ProcessReplyAcknowledges | contracts/simple-ica-host/src/contract.rs:220-228 | The process reply never fails on a self-call's result. A failure turns into the error ack. |
| Host.FirstHandshakeBindsChannel | contracts/simple-ica-host/src/contract.rs:555-579 | On a host with no accounts, the init reply after connect binds exactly the connected channel, and the ascending account listing is that one channel. |
| OrderedKeys.LessIrreflexive | contracts/simple-ica-host/src/contract.rs:71-83 | No channel id sorts before itself. |
| OrderedKeys.LessAsymmetric | contracts/simple-ica-host/src/contract.rs:71-83 | The key order is asymmetric. |
| OrderedKeys.LessTransitive | contracts/simple-ica-host/src/contract.rs:71-83 | The key order is transitive. |
| OrderedKeys.LessTotal | contracts/simple-ica-host/src/contract.rs:71-83 | Any two distinct ids are ordered one way or the other. |
| OrderedKeys.LeastExists | contracts/simple-ica-host/src/contract.rs:71-83 | A non-empty set of ids has a least element. |
| OrderedKeys.SortedKeys | contracts/simple-ica-host/src/contract.rs:71-83 | It lists a set of keys in strictly ascending order, exactly once each. |
| OrderedKeys.EnumerationUnique | contracts/simple-ica-host/src/contract.rs:71-83 | Two ascending listings of the same keys are equal, so the listing is determined by the stored keys. |
| OrderedKeys.EnumerationOfSingleton | contracts/simple-ica-host/src/contract.rs:557-567 | The ascending listing of one key is that key alone. |
| OrderedKeys.SortedEntries | contracts/simple-ica-controller/src/contract.rs:212-221 | A map's entries in strictly ascending key order, each with its own value and covering every key. |
| ControllerCore.AuthorizeAdmin | contracts/simple-ica-controller/src/contract.rs:129-132 | It passes exactly for the admin, and otherwise fails with the given generic error. |
| ControllerCore.LoadAccount | contracts/simple-ica-controller/src/contract.rs:134 | It passes exactly for a registered channel, returns its record, and otherwise reports the accounts store as not found. |
| ControllerCore.SendFunds | contracts/simple-ica-controller/src/contract.rs:150-196 | It fails with no coin, then with more than one coin, then for an unknown channel, then for a missing remote address. Otherwise it emits one transfer of the attached coin to the remote address over the transfer channel, timing out a packet lifetime from now. |
| Controller.ControllerContract.constructor | contracts/simple-ica-controller/src/contract.rs:15-26 | The instantiator becomes the admin that `query_admin` reports, and there are no accounts. |
| Controller.ControllerContract.UpdateAdmin | contracts/simple-ica-controller/src/contract.rs:52-68 | It succeeds exactly for the admin with a valid new address, and then the admin is that address. A non-admin gets the refusal text and the admin is unchanged. |
| Controller.ControllerContract.SendMsgs | contracts/simple-ica-controller/src/contract.rs:70-98 | It succeeds exactly for the admin on a registered channel, in that order of checks. It then emits one packet on that channel carrying `Dispatch { msgs, callback }`, timing out a packet lifetime from now. |
| Controller.ControllerContract.IbcQuery | contracts/simple-ica-controller/src/contract.rs:100-120 | It reads no state, so there is no auth or channel check. It always emits one `IbcQuery { msgs, callback }` packet on the given channel with the lifetime timeout. |
| Controller.ControllerContract.CheckRemoteBalance | contracts/simple-ica-controller/src/contract.rs:122-148 | It has the same admin and channel checks as `SendMsgs`, then emits one `Balances` packet. |
| Controller.ControllerContract.SendFunds | contracts/simple-ica-controller/src/contract.rs:150-196 | Anyone may call it. It applies the exactly-one-coin and known-remote-address rules, and transfers the attached coin. |
| Controller.ControllerContract.Execute | contracts/simple-ica-controller/src/contract.rs:28-50 | No handler touches ACCOUNTS. Only `UpdateAdmin` can change the admin, and it succeeds only when called by the old admin. |
| Controller.ControllerContract.QueryAccount | contracts/simple-ica-controller/src/contract.rs:207-210 | It succeeds exactly for a registered channel, and returns its record. |
| Controller.ControllerContract.ListAccounts | contracts/simple-ica-controller/src/contract.rs:212-221 | It returns every record, each with its channel, in strictly ascending channel order. |
| Controller.ControllerContract.QueryAdmin | contracts/simple-ica-controller/src/contract.rs:223-228 | It returns the admin currently stored in CONFIG. |
| Client.ClientContract.constructor | contracts/simple-ica-client/src/contract.rs:18-29 | The instantiator becomes the admin that `query_admin` reports. No accounts or query results are stored. |
| Client.ClientContract.UpdateAdmin | contracts/simple-ica-client/src/contract.rs:55-71 | It succeeds only for the current admin with a valid new address, which becomes the admin. Otherwise the admin is unchanged. |
| Client.ClientContract.SendMsgs | contracts/simple-ica-client/src/contract.rs:73-106 | Admin only, on a registered channel. The `Dispatch` packet carries the caller as sender, and the messages and callback id unchanged. |
| Client.ClientContract.IbcQuery | contracts/simple-ica-client/src/contract.rs:108-133 | It needs no permission. The packet records the caller as sender, with the queries and callback id unchanged. |
| Client.ClientContract.CheckRemoteBalance | contracts/simple-ica-client/src/contract.rs:135-161 | Admin only, on a registered channel. It emits one `Balances` packet. |
| Client.ClientContract.SendFunds | contracts/simple-ica-client/src/contract.rs:163-209 | It requires exactly one coin and a known remote address. The transfer amount is the attached coin. |
| Client.ClientContract.Execute | contracts/simple-ica-client/src/contract.rs:31-53 | No handler touches ACCOUNTS or LATEST_QUERIES. Only `UpdateAdmin` can change the admin, and only when called by the old admin. |
| Client.ClientContract.QueryAccount | contracts/simple-ica-client/src/contract.rs:223-226 | It succeeds exactly for a registered channel, and returns its record. |
| Client.ClientContract.QueryLatestIbcQueryResult | contracts/simple-ica-client/src/contract.rs:228-230 | It is a per-channel lookup that fails with not-found when nothing is stored, and otherwise returns what is stored. |
| Client.ClientContract.ListAccounts | contracts/simple-ica-client/src/contract.rs:232-241 | It returns every record in strictly ascending channel order. |
| Client.ClientContract.QueryAdmin | contracts/simple-ica-client/src/contract.rs:243-248 | It returns the admin currently stored in CONFIG. |
| Capturer.CallbackCapturer.constructor | contracts/callback-capturer/src/contract.rs:27-31 | It records the admin and the controller, with no results. |
| Capturer.CallbackCapturer.Instantiate | contracts/callback-capturer/src/contract.rs:20-33 | It succeeds exactly when the controller address validates. The sender is then the admin, the validated address is the controller, and no results are stored. |
| Capturer.CallbackCapturer.SendMsgs | contracts/callback-capturer/src/contract.rs:64-90 | A non-admin gets `Unauthorized`. The admin's call emits exactly one execute to the controller, with the callback id wrapped in `Some` and no funds. |
| Capturer.CallbackCapturer.IbcQuery | contracts/callback-capturer/src/contract.rs:92-118 | A non-admin gets `Unauthorized`. The admin's call emits exactly one execute to the controller, with the callback id wrapped in `Some` and no funds. |
| Capturer.CallbackCapturer.CheckRemoteBalance | contracts/callback-capturer/src/contract.rs:120-140 | A non-admin gets `Unauthorized`. The admin's call emits exactly one execute to the controller with no funds. |
| Capturer.CallbackCapturer.SendFunds | contracts/callback-capturer/src/contract.rs:142-166 | A non-admin gets `Unauthorized`. The admin's call emits one execute that forwards the attached funds unchanged. |
| Capturer.CallbackCapturer.ReceiveIbcResponse | contracts/callback-capturer/src/contract.rs:168-186 | It is accepted exactly from the controller. It then sets the ack under its id, overwriting any earlier one, and nothing else changes. On refusal nothing changes. |
| Capturer.CallbackCapturer.Execute | contracts/callback-capturer/src/contract.rs:35-62 | Only a `ReceiveIbcResponse` from the controller can write RESULTS. Every refusal is `Unauthorized`. |
| Capturer.CallbackCapturer.QueryResult | contracts/callback-capturer/src/contract.rs:203-206 | It fails while no callback for the id has arrived, and afterwards returns exactly the stored ack. |
| Capturer.CallbackCapturer.QueryAdmin | contracts/callback-capturer/src/contract.rs:196-201 | It returns the admin recorded at instantiation. |

## Left out

- JSON encoding (`to_binary`, `from_slice`, serde tags). Packets, messages and acks are datatypes, and decoding is the `Chain.decodePacket` oracle. The `to_binary` failures that cannot happen for these types are not modelled.
- `parse_reply_instantiate_data`, `addr_validate`, `query_all_balances`, `raw_query` and the sub-account's execution are oracle inputs in `Chain`. How wasmd renders an error for a reply is the `Chain.errorText` oracle.
- Events and attributes are not modelled, because they are logging only. cw2 `set_contract_version` in the capturer's instantiate is not modelled either, because it only records metadata.
- Host `ibc_packet_ack` and `ibc_packet_timeout` are not modelled, because they are no-ops. Relayers, timeouts and transport are not modelled either.
- The handshake checks live in `checks.rs`, which is not part of this model. Their behaviour is taken from the constants in `packages/simple-ica/src/lib.rs` and the host's channel-open tests.
- The controller's and the client's `ibc.rs` are not part of this model. This covers `PACKET_LIFETIME`, whose value 3600 is an assumption that no proof depends on, and the handlers that write ACCOUNTS and LATEST_QUERIES. The contracts' functions therefore hold for any contents of those stores.
- The responses of `query_account` and `list_accounts` in the controller and client convert `AccountData` through `msg.rs`, which is not part of this model; the records are returned as stored.
- `Timestamp` is seconds as an unbounded `nat`; the nanosecond `u64` representation and its overflow are not modelled. Coin amounts are unbounded too (`Uint128` overflow is not modelled).
- Host CONFIG is always present, since the constructor writes it, so the `CONFIG.load` failure in `ibc_channel_connect` cannot occur and is not modelled. Likewise the capturer's and controllers' CONFIG loads.
- The host unit test at contracts/simple-ica-host/src/contract.rs:607-640 expects the shape from before the self-call was introduced, so it is not a property of the current code.
- `NotFound` errors: the storage library names the missing value's type (for example `simple_ica_host::state::Pending`). The model tags the error with the store's key instead, so the exact error text is not modelled.
- Host.HostContract.OnReply: when the init reply fails, the model rolls back only the reply's own writes. In the runtime, the failed reply aborts the whole `ibc_channel_connect`, including the PENDING write made there. That abort of the connect is not modelled.
- Host.HostContract.ChannelClose: the sweep that moves the account's balance out is modelled as emitted messages. Its failure, which in the runtime aborts `ibc_channel_close`, is not modelled.
- Host.HostContract.DeliverPacket: the runtime's delivery of a packet is modelled as one method that runs `ibc_packet_receive`, the self-call and the process reply in sequence; the runtime's scheduling of submessages beyond this single chain is not modelled.
