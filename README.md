# Node stage machine of a SAFE Network vault, in Dafny

This project models the core of a SAFE Network vault node: the stage machine in
`NodeDuties` that takes a node from Infant to Adult to Elder. It includes the one-time
genesis bootstrap run by the first section's first five elders. It also models the
`WalletSection` value that an elder's key section holds.

A node's `stage` is one of `Infant`, `Adult`, `Genesis(AwaitingGenesisThreshold |
ProposingGenesis | AccumulatingGenesis)`, `AssumingElderDuties` and `Elder`. Each
lifecycle handler first looks at the stage. It then does one of three things:

- returns no operations, because the event is redundant;
- fails with `InvalidOperation` or `Logic`;
- builds the next stage and replaces the old one with it.

Elder duties that arrive during a transition wait in a FIFO queue. The queue moves from
one genesis sub-stage to the next. When the node finally becomes an Elder, the queue is
drained into the new elder subsystem, and two reward registrations follow.

Layout:

- `wrappers.dfy` (`Wrappers`): `Option`, `Result` and the error kinds.
- `network.dfy` (`Network`): identities, the elder's key material (`ElderState`), the
  snapshot of network reads, the genesis credit and signature shares, and the constants
  (`GENESIS_ELDER_COUNT` = 5, the chain bound 5, and u32::MAX·10^9 nanos of supply).
- `node_ops.dfy` (`NodeOps`): the duties a node receives and the operations it returns.
- `genesis.dfy` (`GenesisRounds`): the two genesis rounds and their share accumulation.
- `lifecycle.dfy` (`Lifecycle`): the stages, and one function per handler that maps the
  old stage and the event to the new stage and the result. The properties are proved
  about these functions.
- `node.dfy` (`Node`): the class `NodeDuties` with its `stage` field. Each handler is a
  method that updates `stage` step by step. Each method is proved to produce exactly the
  stage and result of its `Lifecycle` function.
- `key_section.dfy` (`KeySection`): the `WalletSection` enum and its operations.

Abstractions:

- The network reads (`our_prefix().is_empty()`, `our_elder_names().len()`,
  `section_chain().len()`, `public_key()`, `genesis_elder_knowledge()`) are one
  `Snapshot` parameter.
- The elder knowledge passed to `begin_transition_to_elder` is the `ElderState` built
  from it.
- `sign_as_elder` returns a share tagged with the elder's own key index.
- A combined group signature records only its payload. Any threshold + 1 shares combine into the same signature, whichever shares they are and in whatever order they arrived.
- The round agreements are defined in `GenesisRounds`: `SignCredit` gives the proposed
  credit under a group signature over it, and `ProveCredit` gives the agreed signed
  credit under a group signature over it, together with the section's key set. The
  combination itself lives in genesis.rs, which is not part of this model.
- The adult, elder and transfer subsystems answer a duty with one operation tag that
  names it. The elder subsystem also records every duty it processes, in order.

The model follows the code as written:

- `assume_adult_duties` treats only `Adult` as redundant
  (src/node/node_duties/mod.rs:256). From every other stage, including `Elder` and the
  transitional stages, the node becomes an Adult, and any queued duties are dropped.
- `begin_transition_to_elder` does not treat `ProposingGenesis` or `AccumulatingGenesis`
  as redundant (src/node/node_duties/mod.rs:280-282). A repeated promotion during a
  genesis round rebuilds the stage with an empty queue.
  `Lifecycle.RepeatedPromotionDropsGenesisQueue` shows this.
- `initiate_elder_change` and `finish_elder_change` return no operations outside `Elder`.
- A node that is proposing records an incoming share but does not broadcast its own share
  again.
- `receive_genesis_accumulation` in `ProposingGenesis` adopts the signed credit it
  receives without checking it against its own proposal.
- Incoming signature shares are not verified before they are inserted.

## Model

| member | source | states |
|---|---|---|
| `Lifecycle.TryEnqueue` | src/node/node_duties/mod.rs:148-170 | The duty is queued exactly in AssumingElderDuties and the three genesis sub-stages, at the back of the queue, with nothing else changed. In Infant, Adult and Elder the stage is unchanged and the result is false. The variant never changes. |
| `Node.NodeDuties.TryEnqueueElderDuty` | src/node/node_duties/mod.rs:148-170 | The in-place push_back leaves the stage and returns the flag that `TryEnqueue` gives for the old stage. |
| `Lifecycle.Process` | src/node/node_duties/mod.rs:108-131 | A failure leaves the stage unchanged. NoOp yields no ops. An adult duty outside Adult is a Logic error. An elder duty outside Elder gives Ok([]) exactly when it was queued, and a Logic error otherwise. A taken-on elder duty is appended to the accepted duties and the variant is kept. |
| `Node.NodeDuties.Process` | src/node/node_duties/mod.rs:108-131 | Ends in the stage and returns the result that `Lifecycle.Process` gives for the old stage. |
| `Lifecycle.NodeStateOf` | src/node/node_duties/mod.rs:172-184 | There is a node state exactly for an Adult or an Elder, and it carries that stage's identity. Any other stage gives InvalidOperation. |
| `Node.NodeDuties.NodeState` | src/node/node_duties/mod.rs:172-184 | Reads the stage only. Ok exactly for Adult or Elder, and equal to `NodeStateOf`. |
| `Lifecycle.ProcessNodeDuty` | src/node/node_duties/mod.rs:186-220 | A failing event leaves the stage unchanged, and NoOp is a no-op. Apart from AssumeAdultDuties, and AssumeElderDuties during a genesis round, no lifecycle event changes the accepted elder duties. |
| `Node.NodeDuties.ProcessNodeDuty` | src/node/node_duties/mod.rs:186-220 | Dispatches each event to its handler method. Ends as `Lifecycle.ProcessNodeDuty` prescribes. |
| `Lifecycle.RegisterWalletStep` | src/node/node_duties/mod.rs:238-253 | The stage is unchanged. An Adult or an Elder sends RegisterWallet under its own node id. Any other stage fails with InvalidOperation. |
| `Node.NodeDuties.RegisterWallet` | src/node/node_duties/mod.rs:238-253 | Returns what `RegisterWalletStep` prescribes and leaves the stage unchanged. |
| `Lifecycle.AssumeAdultDuties` | src/node/node_duties/mod.rs:255-274 | The stage always ends as Adult. From Adult it returns no ops and leaves the stage unchanged. From any other stage it builds new adult duties for our key and emits exactly one RegisterWallet(reward_key). |
| `Node.NodeDuties.AssumeAdultDuties` | src/node/node_duties/mod.rs:255-274 | Ends as `Lifecycle.AssumeAdultDuties` prescribes. |
| `Lifecycle.AssumeAdultIsIdempotent` | src/node/node_duties/mod.rs:255-258 | Applying AssumeAdultDuties a second time returns no operations and leaves the stage unchanged. |
| `Lifecycle.BeginTransitionToElder` | src/node/node_duties/mod.rs:276-363 | No-op in Elder, AssumingElderDuties and AwaitingGenesisThreshold. It fails exactly for a non-genesis Infant, and then the stage is unchanged. Otherwise exactly one of three branches applies: ProposingGenesis holding only our share over the genesis credit (whole supply, addressed to the section key), with one ProposeGenesis; AwaitingGenesisThreshold with no ops; or AssumingElderDuties with one GetSectionWalletHistory. Only the first section with a short chain enters a genesis stage, only an Adult with five elders proposes, none starts accumulating, and every new stage has an empty queue. |
| `Node.NodeDuties.BeginTransitionToElder` | src/node/node_duties/mod.rs:276-363 | Ends as `Lifecycle.BeginTransitionToElder` prescribes. |
| `Lifecycle.RepeatedPromotionDropsGenesisQueue` | src/node/node_duties/mod.rs:280-362 | As written, a repeated promotion during either genesis round succeeds under any snapshot. It replaces the round with AwaitingGenesisThreshold or AssumingElderDuties holding an empty queue, so any queued duties are lost. |
| `Lifecycle.ReceiveGenesisProposal` | src/node/node_duties/mod.rs:366-457 | No-op in AccumulatingGenesis and Elder. InvalidOperation in Infant, Adult and AssumingElderDuties. From AwaitingGenesisThreshold it moves to ProposingGenesis with the map {sender, own}, the same queue and one ProposeGenesis. In ProposingGenesis it records the share and stays, unless the signed credit now exists; then it moves to AccumulatingGenesis with its own share over it and one AccumulateGenesis. The queue always moves along, and a round keeps its proposal. |
| `Node.NodeDuties.ReceiveGenesisProposal` | src/node/node_duties/mod.rs:366-457 | Ends as `Lifecycle.ReceiveGenesisProposal` prescribes. |
| `Lifecycle.ReceiveGenesisAccumulation` | src/node/node_duties/mod.rs:459-519 | No-op in Elder. InvalidOperation in Infant, Adult, AwaitingGenesisThreshold and AssumingElderDuties, with the stage unchanged. From ProposingGenesis it moves to AccumulatingGenesis with {sender, own} and the received signed credit, keeping the queue, with no ops. In AccumulatingGenesis it records the share; once the proof exists it becomes an Elder seeded with that proof, having processed the queue in order and ending with the two reward ops. On success no queued duty is lost. |
| `Node.NodeDuties.ReceiveGenesisAccumulation` | src/node/node_duties/mod.rs:459-519 | Ends as `Lifecycle.ReceiveGenesisAccumulation` prescribes. |
| `Lifecycle.FinishTransitionToElder` | src/node/node_duties/mod.rs:521-597 | No-op in Elder. It fails exactly in Adult, AwaitingGenesisThreshold, ProposingGenesis, or Infant on a non-genesis node, and then the stage is unchanged. Otherwise the stage ends as Elder, and its elder subsystem has processed exactly the queued duties. The output is the initiate op, each queued duty's op in FIFO order, AddNewNode, then SetNodeWallet. |
| `Node.NodeDuties.FinishTransitionToElder` | src/node/node_duties/mod.rs:521-597 | Ends as `Lifecycle.FinishTransitionToElder` prescribes. |
| `Lifecycle.Promote` | src/node/node_duties/mod.rs:550-596 | Gives the Elder stage whose subsystem processed the queue. The output satisfies PromotionOps: initiate first, then one op per duty in queue order, then the two reward registrations last. |
| `Node.NodeDuties.DrainInto` | src/node/node_duties/mod.rs:558-562 | The drain loop leaves the elder subsystem and the collected operations equal to replaying the queue front first. |
| `Lifecycle.ReplayInOrder` | src/node/node_duties/mod.rs:558-562 | Replaying a queue processes every duty exactly once, in FIFO order. The i-th op answers the i-th duty. |
| `Lifecycle.InitiateElderChange` | src/node/node_duties/mod.rs:600-610 | The stage is unchanged. No ops outside Elder; in Elder the change goes to the elder subsystem. |
| `Node.NodeDuties.InitiateElderChange` | src/node/node_duties/mod.rs:600-610 | Returns what `Lifecycle.InitiateElderChange` prescribes. |
| `Lifecycle.FinishElderChange` | src/node/node_duties/mod.rs:613-628 | The stage is unchanged. No ops outside Elder; in Elder the change goes to the elder subsystem. |
| `Node.NodeDuties.FinishElderChange` | src/node/node_duties/mod.rs:613-628 | Returns what `Lifecycle.FinishElderChange` prescribes. |
| `Node.NodeDuties.constructor` | src/node/node_duties/mod.rs:94-106 | A new node starts as an Infant. |
| `Lifecycle.ProcessKeepsRoundsWellFormed` | src/node/node_duties/mod.rs:408-446 | Under every duty, a genesis round keeps an entry under our own share index and never keeps an agreement it has not acted on. |
| `Lifecycle.ElderDutyQueuedInTransition` | src/node/node_duties/mod.rs:118-127 | In a transitional stage, process() queues an elder duty exactly as try_enqueue_elder_duty does. |
| `Lifecycle.DutiesQueueInArrivalOrder` | src/node/node_duties/mod.rs:118-170 | Elder duties handed in during a transition are all queued, in arrival order, behind the duties already queued. The variant and everything besides the queue stay the same. |
| `Lifecycle.QueuedDutiesReplayedInOrder` | src/node/node_duties/mod.rs:528-596 | Duties queued during AssumingElderDuties or AccumulatingGenesis are processed by the new Elder in arrival order, and AddNewNode and SetNodeWallet come after all of them. |
| `GenesisRounds.AddShare` | src/node/node_duties/mod.rs:408-411 | Insertion is keyed by share index. A duplicate index overwrites and is not counted again. The agreement appears once the count exceeds the threshold and is never replaced or cleared. |
| `GenesisRounds.AgreementOnceThresholdExceeded` | src/node/node_duties/mod.rs:408-411 | Over any sequence of shares, no share is lost and an agreement once present stays. The agreement is present exactly when it already was, or when a share was added and the count exceeds the threshold. |
| `GenesisRounds.DistinctSharesAllCount` | src/node/node_duties/mod.rs:408-411 | Shares from distinct new signers each add exactly one entry. |
| `GenesisRounds.ThresholdExactness` | src/node/node_duties/mod.rs:408-411 | Starting from no shares, distinct shares produce the agreement exactly when there are more than the threshold: with threshold T, T shares leave it absent and T+1 make it present. The agreement present is the round's own agreement. |
| `GenesisRounds.SharesKeysAndFrame` | src/node/node_duties/mod.rs:408-411 | Recording shares adds exactly their indices to the map. Entries under any other index are untouched. |
| `GenesisRounds.DistinctSharesRecorded` | src/node/node_duties/mod.rs:408-411 | Shares from distinct signers are each present afterwards, under their own index. |
| `GenesisRounds.SameShareMap` | src/node/node_duties/mod.rs:408-411 | Two arrival orders of the same shares from distinct signers build the same share map. |
| `GenesisRounds.AgreementIndependentOfOrder` | src/node/node_duties/mod.rs:408-411 | Two arrival orders of the same shares from distinct signers end with the same share map and the same agreement. |
| `GenesisRounds.AddProposalShare` | src/node/node_duties/mod.rs:408-411 | The round keeps its elder state, proposal and queue, and records the share by index. The signed credit over the proposal appears exactly when the count first exceeds the threshold, and then stays. |
| `GenesisRounds.AddAccumulationShare` | src/node/node_duties/mod.rs:486-488 | The round keeps its elder state, agreed signed credit and queue, and records the share by index. The credit proof over the agreed signed credit, carrying the section's key set, appears exactly when the count first exceeds the threshold, and then stays. |
| `KeySection.TransferReplicas` | src/node/elder_duties/key_section/mod.rs:165-183 | The replicas sit under the node's root directory. Their info copies the id, key index, public key set and section chain from the elder state, with initiating = true. |
| `KeySection.PreElder` | src/node/elder_duties/key_section/mod.rs:55-62 | Always the PreElder variant, holding the given elder state and new transfers over initiating replicas. |
| `KeySection.Enable` | src/node/elder_duties/key_section/mod.rs:64-79 | Succeeds exactly on PreElder, giving Elder with the same transfers and elder state. On Elder it fails with InvalidOperation. |
| `KeySection.EnableOnlyOnce` | src/node/elder_duties/key_section/mod.rs:64-79 | A newly built section can be enabled once and keeps its transfers. Enabling it again fails, so enable is not idempotent. |
| `KeySection.EldersChanged` | src/node/elder_duties/key_section/mod.rs:131-148 | Only the replica info (copied from the new elder state, initiating = false) and the rate limit change. The variant, the elder state and the root directory do not. |
| `KeySection.EldersChangedCommutesWithEnable` | src/node/elder_duties/key_section/mod.rs:131-148 | For a PreElder section, enabling before or after an elders change gives the same section. |
| `KeySection.SetNodeJoinFlag` | src/node/elder_duties/key_section/mod.rs:117-129 | No ops exactly when routing accepted the flag. Otherwise routing's error is passed on unchanged. |
| `KeySection.ProcessKeySectionDuty` | src/node/elder_duties/key_section/mod.rs:156-163 | NoOp yields an empty op list. A transfer duty goes to the transfers. |

## Left out

- src/node/handle_msg.rs is not part of this model. Its dispatch arms are commented out, so it is only glue.
- src/capacity/rate_limit.rs is not part of this model. It computes the store cost in floating point. The `RateLimit` handed to the key section is opaque.
- genesis.rs is not part of this model. `GenesisProposal::add` and `GenesisAccumulation::add` are modelled as an insert keyed by share index. The agreement appears once more shares than the key set's threshold are held. Their own error path (a failed BLS combination) is not modelled.
- BLS cryptography is not modelled. `sign_as_elder` yields a share that names its signer and payload, and a combined signature names only its payload. No share is verified, and neither does the source verify any.
- Failures of collaborators are not modelled, because the model treats every collaborator as succeeding. These are `ElderState::new`, `AdultState::new`, `AdultDuties::new`, `sign_as_elder`, `ElderDuties::new`, `initiate`, `process_elder_duty`, `genesis_elder_knowledge`, `process_adult_duty` (src/node/node_duties/mod.rs:113), `ElderConstellation::initiate_elder_change` and `finish_elder_change` (src/node/node_duties/mod.rs:608, 624), and `process_transfer_duty` (src/node/elder_duties/key_section/mod.rs:160). The source passes each such failure on with `?`.
- `Node.NodeDuties.FinishTransitionToElder`: does not model a queued duty that fails halfway through the drain. In that case the source returns the error after the queue has been drained.
- Network and I/O plumbing is not modelled: `Messaging`, `NetworkEvents`, `MessageId::new()`, `used_space.reset()`, and message destinations other than the section key carried in each operation.
- The `ProcessMessaging` and `ProcessNetworkEvent` arms of `process_node_duty` are left out, because they hand over to messaging and network events.
- The internal state of `ElderConstellation` is not modelled. In `Elder`, `initiate_elder_change` and `finish_elder_change` return one operation tag and change nothing.
- The internals of `Transfers` and `Replicas` are not modelled. So `increase_full_node_count`, `init_genesis_node`, `catchup_with_section` and `split_section` are left out, because each only delegates to them. `process_key_section_duty` answers a transfer duty with a tag.
- `KeySection.EldersChanged`: the update in place through `&mut self` is modelled as returning the updated value. The exclusive borrow means nothing else can observe the difference.
- `KeySection.SetNodeJoinFlag`: routing's answer to `set_joins_allowed` is a parameter, because routing is not modelled.
- async/await is not modelled. Handlers run to completion one at a time, so they are sequential methods.
