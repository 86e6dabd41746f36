/** Whole deployments: the three invocations of one provisioning cycle, as
    the host drives them, and the worked scenarios of the design. */
module Deployment {
  import opened Msg
  import opened State
  import opened Contract

  /** One full cycle: `execute_deployer`, then the host's reply to the
      submessage it emitted (carrying the new group's address), then the reply
      to the submessage that one emitted (carrying the new multisig's address).
      The reply ids are the ones the responses tagged their submessages with. */
  method Deploy(d: Deployer, env: Env, deploy: DeployMsg, group: string, multisig: string)
    returns (r1: Result<Response>, r2: Result<Response>, r3: Result<Response>)
    modifies d
    ensures r1.Ok? && |r1.value.messages| == 1
    ensures r1.value.messages[0].msg
            == Instantiate(None, Cw4GroupCodeId,
                           Cw4Group(Cw4InstantiateMsg(Some(env.contractAddress), deploy.members)), Cw4GroupLabel)
    ensures r2.Ok? && |r2.value.messages| == 1
    ensures r2.value.messages[0].msg
            == Instantiate(None, Cw3MultisigCodeId,
                           Cw3Multisig(Cw3InstantiateMsg(group, AbsoluteCount(deploy.thresholdWeight),
                                                         Time(deploy.maxVotingPeriod))),
                           Cw3MultisigLabel)
    ensures r3 == Ok(Response([Message(Execute(group, AddHook(multisig))),
                               Message(Execute(group, UpdateAdmin(Some(multisig))))]))
    ensures d.deployData == Some(deploy) && d.groupAddr == Some(group)
    ensures d.userWallets == PushAll(old(d.userWallets), deploy.members, multisig)
    ensures old(d.Valid()) ==> d.Valid()
  {
    r1 := d.ExecuteDeployer(env, deploy);
    r2 := d.Reply(Reply(r1.value.messages[0].id, Some(group)));
    r3 := d.Reply(Reply(r2.value.messages[0].id, Some(multisig)));
  }

  /** Two deployments on fresh storage: the first for addr1 and addr2 (group
      reg1, multisig gov1), the second for addr1 alone (group reg2, multisig
      gov2). The second cycle appends to addr1's list rather than replacing
      it; addr2 keeps its list; addr3 was never a member and is not found. */
  method TwoDeployments()
    returns (afterFirst: Result<GetListOfWalletResponse>, afterSecond: Result<GetListOfWalletResponse>,
             other: Result<GetListOfWalletResponse>, stranger: Result<GetListOfWalletResponse>,
             finalMessages: Result<Response>)
    ensures afterFirst == Ok(GetListOfWalletResponse(["gov1"]))
    ensures afterSecond == Ok(GetListOfWalletResponse(["gov1", "gov2"]))
    ensures other == Ok(GetListOfWalletResponse(["gov1"]))
    ensures stranger == Err(WalletsNotFound)
    ensures finalMessages == Ok(Response([Message(Execute("reg1", AddHook("gov1"))),
                                          Message(Execute("reg1", UpdateAdmin(Some("gov1"))))]))
  {
    var d := new Deployer();
    var env := Env("deployer");
    var first := DeployMsg([Member("addr1", 1), Member("addr2", 1)], 2, 86400);
    var _, _, r3 := Deploy(d, env, first, "reg1", "gov1");
    finalMessages := r3;
    PushAllMember(map[], first.members, "gov1", 0);
    PushAllMember(map[], first.members, "gov1", 1);
    afterFirst := d.GetListWallet("addr1");

    var second := DeployMsg([Member("addr1", 1)], 1, 86400);
    ghost var before := d.userWallets;
    var _, _, _ := Deploy(d, env, second, "reg2", "gov2");
    assert before["addr1"] == ["gov1"];
    PushAllMember(before, second.members, "gov2", 0);
    assert d.userWallets["addr1"] == ["gov1"] + ["gov2"] == ["gov1", "gov2"];
    PushAllUntouched(before, second.members, "gov2", "addr2");
    afterSecond := d.GetListWallet("addr1");
    other := d.GetListWallet("addr2");

    PushAllUntouched(map[], first.members, "gov1", "addr3");
    PushAllUntouched(before, second.members, "gov2", "addr3");
    stranger := d.GetListWallet("addr3");
  }

  /** A multisig reply on fresh storage: the group-address slot is read
      first, so the invocation fails with the group-address error and the
      wallet index stays empty. */
  method ReplyWithoutDeployment() returns (r: Result<Response>, wallets: Wallets)
    ensures r == Err(GroupAddrNotFound)
    ensures wallets == map[]
  {
    var d := new Deployer();
    r := d.Reply(Reply(InstantiateCw3FlexMultisig, Some("gov1")));
    wallets := d.userWallets;
  }

  /** Two requests before the first cycle completes: the slot holds only the
      later one, so the multisig reply records the later request's members. */
  method OverlappingRequests(d: Deployer, env: Env, earlier: DeployMsg, later: DeployMsg, group: string, multisig: string)
    returns (r: Result<Response>)
    modifies d
    ensures r.Ok?
    ensures d.userWallets == PushAll(old(d.userWallets), later.members, multisig)
  {
    var _ := d.ExecuteDeployer(env, earlier);
    var _ := d.ExecuteDeployer(env, later);
    var _ := d.Reply(Reply(InstantiateCw4GroupMsg, Some(group)));
    r := d.Reply(Reply(InstantiateCw3FlexMultisig, Some(multisig)));
  }
}
