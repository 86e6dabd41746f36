/** The deployer contract: a three-step provisioning state machine over
    persisted storage.

    `execute_deployer` stores the request and asks the host to instantiate a
    cw4 group (reply id 1); the reply for it stores the group address and asks
    for a cw3 flex multisig bound to that group (reply id 2); the reply for
    that records the multisig in every member's wallet list and hands the
    group over to the multisig (AddHook, then UpdateAdmin).

    The host runs each entry point as a transaction: when it returns `Err`,
    every write it made is discarded. Each entry point below promises exactly
    that: `r.Err? ==> Unchanged()`. */
module Contract {
  import opened Msg
  import opened State

  class Deployer {
    /** `DEPLOY_DATA`: the single pending deployment request. */
    var deployData: Option<DeployMsg>
    /** `GROUP_ADDR`: the address of the cw4 group instantiated last. */
    var groupAddr: Option<string>
    /** `USER_WALLETS`: member address -> multisig addresses it belongs to. */
    var userWallets: Wallets

    /** Fresh contract storage: all three slots are empty. */
    constructor ()
      ensures deployData == None && groupAddr == None && userWallets == map[]
      ensures Valid()
    {
      deployData := None;
      groupAddr := None;
      userWallets := map[];
    }

    /** What every reachable storage state satisfies: no wallet list is empty. */
    ghost predicate Valid()
      reads this
    {
      NonEmptyEntries(userWallets)
    }

    /** No slot changed between the old state and this one. */
    twostate predicate Unchanged()
      reads this
    {
      deployData == old(deployData) && groupAddr == old(groupAddr) && userWallets == old(userWallets)
    }

    /** The outcome of the cw4-group reply handler. */
    twostate predicate Cw4Replied(msg: Reply, new r: Result<Response>)
      reads this
    {
      match msg.instantiated
      case None =>
        r == Err(DataError) && Unchanged()
      case Some(group) =>
        match old(deployData)
        case None =>
          r == Err(DeployDataError) && Unchanged()
        case Some(deploy) =>
          // only GROUP_ADDR is written, and the next submessage embeds it
          && groupAddr == Some(group)
          && deployData == old(deployData)
          && userWallets == old(userWallets)
          && r.Ok? && |r.value.messages| == 1
          && var sub := r.value.messages[0];
          && sub.id == InstantiateCw3FlexMultisig
          && sub.replyOn == OnSuccess
          && sub.msg == Instantiate(None, Cw3MultisigCodeId,
                                    Cw3Multisig(Cw3InstantiateMsg(groupAddr.value,
                                                                  AbsoluteCount(deploy.thresholdWeight),
                                                                  Time(deploy.maxVotingPeriod))),
                                    Cw3MultisigLabel)
    }

    /** The outcome of the cw3-multisig reply handler. */
    twostate predicate Cw3Replied(msg: Reply, new r: Result<Response>)
      reads this
    {
      if msg.instantiated.None? then
        r == Err(ContractAddrError) && Unchanged()
      else if old(groupAddr).None? then
        r == Err(GroupAddrNotFound) && Unchanged()
      else if old(deployData).None? then
        r == Err(DeployMsgNotFound) && Unchanged()
      else
        var multisig, group, deploy := msg.instantiated.value, old(groupAddr).value, old(deployData).value;
        // only USER_WALLETS is written: one append per listed member
        && deployData == old(deployData)
        && groupAddr == old(groupAddr)
        && userWallets == PushAll(old(userWallets), deploy.members, multisig)
        // the group gets the multisig as hook, then as admin
        && r == Ok(Response([Message(Execute(group, AddHook(multisig))),
                             Message(Execute(group, UpdateAdmin(Some(multisig))))]))
    }

    /** `execute_deployer`: store the request, replacing any earlier one, and
        ask for a cw4 group administered by this contract, seeded with the
        request's members, replying with id 1. */
    method ExecuteDeployer(env: Env, deploy: DeployMsg) returns (r: Result<Response>)
      modifies this
      ensures deployData == Some(deploy)
      ensures groupAddr == old(groupAddr) && userWallets == old(userWallets)
      ensures r.Ok? && |r.value.messages| == 1
      ensures r.value.messages[0]
              == SubMsg(InstantiateCw4GroupMsg,
                        Instantiate(None, Cw4GroupCodeId,
                                    Cw4Group(Cw4InstantiateMsg(Some(env.contractAddress), deploy.members)),
                                    Cw4GroupLabel),
                        OnSuccess)
      ensures old(Valid()) ==> Valid()
    {
      deployData := Some(deploy);
      var instantiateCw4Group := Instantiate(None, Cw4GroupCodeId,
                                             Cw4Group(Cw4InstantiateMsg(Some(env.contractAddress), deploy.members)),
                                             Cw4GroupLabel);
      r := Ok(Response([SubMsg(InstantiateCw4GroupMsg, instantiateCw4Group, OnSuccess)]));
    }

    /** `get_list_wallet`: the stored list for a present key; an error, never
        an empty list, for an absent one. */
    function GetListWallet(userAddress: string): (r: Result<GetListOfWalletResponse>)
      reads this
      ensures r.Ok? <==> userAddress in userWallets
      ensures r.Ok? ==> r.value.wallets == userWallets[userAddress]
      ensures r.Err? ==> r.error == WalletsNotFound
      ensures Valid() && r.Ok? ==> r.value.wallets != []
    {
      if userAddress in userWallets then Ok(GetListOfWalletResponse(userWallets[userAddress]))
      else Err(WalletsNotFound)
    }

    /** `reply`: route id 1 to the cw4 handler and id 2 to the cw3 handler;
        any other id fails and changes nothing. */
    method Reply(msg: Reply) returns (r: Result<Response>)
      modifies this
      ensures msg.id == InstantiateCw4GroupMsg ==> Cw4Replied(msg, r)
      ensures msg.id == InstantiateCw3FlexMultisig ==> Cw3Replied(msg, r)
      ensures msg.id != InstantiateCw4GroupMsg && msg.id != InstantiateCw3FlexMultisig ==>
                r == Err(IdError) && Unchanged()
      ensures r.Err? ==> Unchanged()
      ensures old(Valid()) ==> Valid()
    {
      if msg.id == InstantiateCw4GroupMsg {
        r := HandleInstantiateCw4Reply(msg);
      } else if msg.id == InstantiateCw3FlexMultisig {
        r := HandleInstantiateCw3FlexMultisig(msg);
      } else {
        r := Err(IdError);
      }
    }

    /** `reply::handle_instantiate_cw4_reply`. */
    method HandleInstantiateCw4Reply(msg: Reply) returns (r: Result<Response>)
      modifies this
      ensures Cw4Replied(msg, r)
      ensures r.Err? ==> Unchanged()
      ensures old(Valid()) ==> Valid()
    {
      match msg.instantiated {
        case None =>
          r := Err(DataError);
        case Some(group) =>
          var committed := groupAddr;
          groupAddr := Some(group);
          match deployData {
            case None =>
              // the invocation fails, so the host discards the write above
              groupAddr := committed;
              r := Err(DeployDataError);
            case Some(deploy) =>
              var instantiateCw3 := Instantiate(None, Cw3MultisigCodeId,
                                                Cw3Multisig(Cw3InstantiateMsg(group,
                                                                              AbsoluteCount(deploy.thresholdWeight),
                                                                              Time(deploy.maxVotingPeriod))),
                                                Cw3MultisigLabel);
              r := Ok(Response([SubMsg(InstantiateCw3FlexMultisig, instantiateCw3, OnSuccess)]));
          }
      }
    }

    /** `reply::handle_instantiate_cw3_flex_multisig`. */
    method HandleInstantiateCw3FlexMultisig(msg: Reply) returns (r: Result<Response>)
      modifies this
      ensures Cw3Replied(msg, r)
      ensures r.Err? ==> Unchanged()
      ensures old(Valid()) ==> Valid()
    {
      match msg.instantiated {
        case None =>
          r := Err(ContractAddrError);
        case Some(multisig) =>
          match groupAddr {
            case None =>
              r := Err(GroupAddrNotFound);
            case Some(group) =>
              match deployData {
                case None =>
                  r := Err(DeployMsgNotFound);
                case Some(deploy) =>
                  var members := deploy.members;
                  for i := 0 to |members|
                    invariant userWallets == PushAll(old(userWallets), members[..i], multisig)
                    invariant deployData == old(deployData) && groupAddr == old(groupAddr)
                  {
                    var user := members[i].addr;
                    var stored := if user in userWallets then Some(userWallets[user]) else None;
                    userWallets := userWallets[user := PushWallet(stored, multisig)];
                    assert members[..i + 1][..i] == members[..i];
                  }
                  assert members[..|members|] == members;
                  if old(Valid()) {
                    PushAllNonEmpty(old(userWallets), members, multisig);
                  }
                  var addHook := Execute(group, AddHook(multisig));
                  var updateAdmin := Execute(group, UpdateAdmin(Some(multisig)));
                  r := Ok(Response([Message(addHook), Message(updateAdmin)]));
              }
          }
      }
    }
  }
}
