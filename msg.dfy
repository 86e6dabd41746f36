/** Messages, replies, responses and errors of the deployer contract.

    The crate's `msg.rs` and `error.rs` are not part of this model; the shapes
    below are the ones `contract.rs` uses: a deployment request with members,
    a threshold weight and a voting period; the two instantiation payloads
    (cw4 group, cw3 flex multisig); the two cw4 execute messages; and the
    CosmWasm submessage/response envelope. Encoding (`to_binary`) is taken to
    be total, so messages stay values here. */
module Msg {

  datatype Option<+T> = None | Some(value: T)

  /** cw4 group member: an address and its voting weight. */
  datatype Member = Member(addr: string, weight: nat)

  /** The deployment request carried by `ExecuteMsg::Deployer`. */
  datatype DeployMsg = DeployMsg(members: seq<Member>, thresholdWeight: nat, maxVotingPeriod: nat)

  /** The cw_utils threshold variant the deployer uses. */
  datatype Threshold = AbsoluteCount(weight: nat)

  /** cw_utils voting-period duration, in blocks or in seconds. */
  datatype Duration = Height(blocks: nat) | Time(seconds: nat)

  datatype Cw4InstantiateMsg = Cw4InstantiateMsg(admin: Option<string>, members: seq<Member>)

  /** cw3 flex multisig instantiation; `executor` and `proposal_deposit` are always None. */
  datatype Cw3InstantiateMsg = Cw3InstantiateMsg(groupAddr: string, threshold: Threshold, maxVotingPeriod: Duration)

  datatype Cw4ExecuteMsg = AddHook(addr: string) | UpdateAdmin(admin: Option<string>)

  /** The payload of a `WasmMsg::Instantiate`. */
  datatype InstantiatePayload = Cw4Group(cw4: Cw4InstantiateMsg) | Cw3Multisig(cw3: Cw3InstantiateMsg)

  datatype WasmMsg =
    | Instantiate(admin: Option<string>, codeId: nat, payload: InstantiatePayload, instanceLabel: string)
    | Execute(contractAddr: string, exec: Cw4ExecuteMsg)

  /** When the host calls back `reply` for a submessage. */
  datatype ReplyOn = OnSuccess | Never

  datatype SubMsg = SubMsg(id: nat, msg: WasmMsg, replyOn: ReplyOn)

  /** Outbound messages of one invocation, in the order they were added. */
  datatype Response = Response(messages: seq<SubMsg>)

  /** `Response::add_message`: a plain message is a submessage with id 0 that never replies. */
  function Message(msg: WasmMsg): SubMsg
  {
    SubMsg(0, msg, Never)
  }

  /** The host's callback for a submessage: its id, and the instantiated
      contract's address as `parse_reply_instantiate_data` would extract it
      (None when the reply data cannot be parsed). */
  datatype Reply = Reply(id: nat, instantiated: Option<string>)

  /** The part of the execution environment the contract reads. */
  datatype Env = Env(contractAddress: string)

  /** Response of the `GetListOfWallet` query. */
  datatype GetListOfWalletResponse = GetListOfWalletResponse(wallets: seq<string>)

  /** One variant per failure site of `contract.rs`. */
  datatype ContractError =
    | IdError            // "ID Error!": unknown reply id
    | DataError          // "Data Error!": cw4 reply data unparsable
    | DeployDataError    // "Deploy Data Error!": cw4 reply, no stored request
    | ContractAddrError  // "Contract Error!": cw3 reply data unparsable
    | GroupAddrNotFound  // "cw4_group_addr not found!": cw3 reply, no stored group address
    | DeployMsgNotFound  // "Can't Find Deploy Msg!": cw3 reply, no stored request
    | WalletsNotFound    // "Unable to fetch user wallets": query for an absent key

  datatype Result<+T> = Ok(value: T) | Err(error: ContractError)

  /** Reply ids the contract tags its two instantiation submessages with. */
  const InstantiateCw4GroupMsg: nat := 1
  const InstantiateCw3FlexMultisig: nat := 2

  /** Code ids of the uploaded cw4 group and cw3 flex multisig contracts. */
  const Cw4GroupCodeId: nat := 3035
  const Cw3MultisigCodeId: nat := 3036

  const Cw4GroupLabel: string := "cw4_group_instantiate"
  const Cw3MultisigLabel: string := "cw3_multi_sig"
}
