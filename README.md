# Deployer contract — Dafny model

A model of a CosmWasm "deployer" contract. It provisions a cw4 membership
group and then a cw3 flex multisig bound to that group. It records, for each
group member, the multisigs the member belongs to. Finally it hands control of
the group to the multisig.

The contract is a three-step state machine over three persisted slots:

- `DEPLOY_DATA`: the single pending deployment request.
- `GROUP_ADDR`: the address of the cw4 group instantiated last.
- `USER_WALLETS`: member address -> ordered list of multisig addresses.

These are the fields `deployData`, `groupAddr` and `userWallets` of the class
`Contract.Deployer`. Each entry point is a method of that class.

1. `ExecuteDeployer` stores the request. It emits a cw4 instantiation that
   replies with id 1.
2. `Reply` with id 1 runs `HandleInstantiateCw4Reply`. That handler stores the
   group address and emits a cw3 instantiation bound to it, replying with id 2.
3. `Reply` with id 2 runs `HandleInstantiateCw3FlexMultisig`. That handler
   appends the multisig address to every member's list, in member order. It
   then emits `AddHook` and `UpdateAdmin` to the group.

`GetListWallet` is the read-only query. It is a function on the class.

The host runs every invocation as a transaction. Each entry point promises
that an `Err` result leaves every slot unchanged. The cw4 handler writes
`GROUP_ADDR` before it loads the request, as the source does. When the request
is missing, the method puts the old value back, which stands for the host's
rollback.

Files:

- `msg.dfy` (module `Msg`): requests, messages, replies, errors, constants.
- `state.dfy` (module `State`): the wallet index. `PushAll` is the
  per-member loop written as a function. The lemmas say what it does to
  every key.
- `contract.dfy` (module `Contract`): the `Deployer` class and its entry
  points. The two-state predicates `Cw4Replied` and `Cw3Replied` state each
  reply handler's whole outcome. `Reply` and the handler share them.
- `deployment.dfy` (module `Deployment`): whole cycles of several
  invocations, plus worked scenarios.

External inputs are parameters:

- The contract's own address is an `Env` parameter.
- The result of `parse_reply_instantiate_data` is the `Option<string>`
  field of `Reply`. `None` stands for reply data that could not be parsed.

Where the design text and the code disagree, the model follows the code:

- Design text: a multisig reply with no stored request fails with the
  request-missing error. Code: it checks `GROUP_ADDR` first. On fresh
  storage the reply therefore fails with "cw4_group_addr not found!"
  (`GroupAddrNotFound`). See `Deployment.ReplyWithoutDeployment`.
- Design text: one "data" error for unparsable payloads in both handlers.
  Code: the cw3 handler has its own message, "Contract Error!"
  (`ContractAddrError`).
- Design text: a member missing from the index is the same as an empty list.
  Code: the query fails for a missing key and returns `[]` for a present
  empty one. Every reachable state has no empty lists (`Deployer.Valid`).

## Model

| member | source | states |
|---|---|---|
| `Contract.Deployer.constructor` | contracts/deployer/src/state.rs:4-6 | Fresh storage: no request, no group address, empty wallet index. The storage invariant holds. |
| `Contract.Deployer.ExecuteDeployer` | contracts/deployer/src/contract.rs:50-77 | Stores the request, replacing any previous one. Leaves the group address and wallet index unchanged. Always succeeds. Emits exactly one submessage: reply id 1, reply on success, instantiating code 3035 with admin = this contract and members = the request's members. |
| `Contract.Deployer.GetListWallet` | contracts/deployer/src/contract.rs:89-102 | Succeeds iff the key is present, and then returns exactly the stored list. An absent key gives `WalletsNotFound`. Under the storage invariant a successful result is never empty. Reads only. |
| `Contract.Deployer.Reply` | contracts/deployer/src/contract.rs:104-118 | Id 1 has the cw4 handler's outcome and id 2 the cw3 handler's. Any other id gives `IdError` and changes nothing. Every `Err` leaves all slots unchanged. Keeps the storage invariant. |
| `Contract.Deployer.HandleInstantiateCw4Reply` | contracts/deployer/src/contract.rs:123-178 | Unparsable reply: `DataError`, nothing changed. No stored request: `DeployDataError`, and the group-address write is rolled back. Otherwise only `GROUP_ADDR` changes, to the new group. One submessage follows: reply id 2, code 3036, `group_addr` = the saved address, `AbsoluteCount(threshold_weight)`, `Time(max_voting_period)`. |
| `Contract.Deployer.HandleInstantiateCw3FlexMultisig` | contracts/deployer/src/contract.rs:180-270 | Unparsable reply: `ContractAddrError`. No group address: `GroupAddrNotFound`. No request: `DeployMsgNotFound`. Checked in that order; each leaves all slots unchanged. Otherwise only the wallet index changes, to `PushAll(old index, members, multisig)`. The response is exactly `[AddHook(multisig), UpdateAdmin(Some(multisig))]`, both to the stored group. |
| `State.PushAllEntry` | contracts/deployer/src/contract.rs:196-224 | For every key: present after the loop iff present before or listed as a member. Its list is the old list (empty if absent) followed by one copy of the multisig per time the key is listed. |
| `State.PushAllUntouched` | contracts/deployer/src/contract.rs:196-214 | A key not in the member list keeps its presence and its list. |
| `State.PushAllMember` | contracts/deployer/src/contract.rs:197-212 | Every member is present after the loop. A member listed once gets exactly one append at the end. A member absent before becomes `[multisig]`. |
| `State.PushAllTwice` | contracts/deployer/src/contract.rs:196-214 | A member listed twice gets two appends. |
| `State.PushAllFanOut` | contracts/deployer/src/contract.rs:196-224 | With no repeated member addresses, each member's list is its old list plus exactly one copy of the new multisig. |
| `State.PushAllAppendOnly` | contracts/deployer/src/state.rs:6 | The wallet index only grows: no key is removed, and each old list is a prefix of its new value. |
| `State.PushAllNonEmpty` | contracts/deployer/src/contract.rs:200-212 | The loop keeps every stored list non-empty, because a new entry starts as a one-element list. |
| `Deployment.Deploy` | contracts/deployer/src/contract.rs:56-248 | Execute, then reply 1, then reply 2 (with the ids the responses tagged): all succeed. The cw4 call carries the request's members. The cw3 call carries the group address from the first reply. The final response is AddHook then UpdateAdmin to that group. The index becomes `PushAll` of the request's members. |
| `Deployment.TwoDeployments` | contracts/deployer/src/contract.rs:89-248 | On fresh storage: after one cycle for addr1 and addr2, addr1's list is `["gov1"]`. A second cycle for addr1 alone gives `["gov1", "gov2"]` (append, not replace). addr2 keeps `["gov1"]`. addr3 is not found. The final messages go to `reg1`. |
| `Deployment.ReplyWithoutDeployment` | contracts/deployer/src/contract.rs:184-262 | A multisig reply on fresh storage fails with `GroupAddrNotFound` and leaves the wallet index empty. |
| `Deployment.OverlappingRequests` | contracts/deployer/src/state.rs:4 | A second request before the first cycle completes overwrites the single slot. The multisig reply then records the later request's members only. |

## Left out

- `instantiate` and `set_contract_version`: cw2 version stamping and response attributes, with no logic.
- The `execute` and `query` entry points: a one-variant match around `execute_deployer`, and serialization of `get_list_wallet`'s result.
- Encoding with `to_binary`: treated as total, so messages stay datatypes. The host's serialization errors are not modelled.
- Response attributes, `funds` (always empty) and the cw3 `executor` and `proposal_deposit` fields (always `None`): fixed values with no behaviour.
- `parse_reply_instantiate_data`: its result is the `Option<string>` field of `Reply`.
- The "Unable to update user wallets!" error: the update closure never fails, and storage (de)serialization errors are outside the model. A loop that stops on member k of N therefore cannot happen in the model.
- The host: submessage execution, delivery of `reply_on_success` callbacks, gas, and the general rollback mechanism. Rollback appears only as the promise "`Err` leaves every slot unchanged".
- Integer widths: reply ids, code ids, weights and durations are `nat` rather than `u64`. The contract does no arithmetic on them.
- The `Threshold` variants other than `AbsoluteCount`: the contract never builds them.
- `MessageInfo` and every `Env` field except the contract address: the contract does not read them.
- Concurrency: the host runs one invocation at a time.
