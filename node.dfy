/**
 * NodeDuties: the object that owns the node's stage and replaces it in place on every
 * lifecycle event. Each method does what its handler does, step by step, and is proved
 * to leave the stage and return the result that the corresponding Lifecycle function
 * prescribes for the old stage.
 */
module Node {
  import opened Wrappers
  import opened Network
  import opened NodeOps
  import opened GenesisRounds
  import opened Lifecycle

  class NodeDuties {
    const info: NodeInfo
    var stage: Stage

    /** A node starts as an Infant. */
    constructor (info: NodeInfo)
      ensures this.info == info && stage == Infant
    {
      this.info := info;
      stage := Infant;
    }

    method Process(snap: Snapshot, duty: NetworkDuty) returns (r: Result<seq<Op>>)
      modifies this
      ensures Step(stage, r) == Lifecycle.Process(old(stage), info, snap, duty)
    {
      match duty {
        case RunAsAdult(d) =>
          if stage.Adult? {
            r := Ok([AdultDutyDone(d)]);
          } else {
            r := Err(Logic);
          }
        case RunAsElder(d) =>
          if stage.Elder? {
            var processed := ProcessElderDuty(stage.elderDuties, d);
            stage := Elder(processed.0);
            r := Ok(processed.1);
          } else {
            var queued := TryEnqueueElderDuty(d);
            if queued {
              r := Ok([]);
            } else {
              r := Err(Logic);
            }
          }
        case RunAsNode(nd) =>
          r := ProcessNodeDuty(snap, nd);
        case NoOp =>
          r := Ok([]);
      }
    }

    method TryEnqueueElderDuty(d: ElderDuty) returns (queued: bool)
      modifies this
      ensures (stage, queued) == TryEnqueue(old(stage), d)
    {
      match stage {
        case AssumingElderDuties(es, q) =>
          stage := AssumingElderDuties(es, q + [d]);
          queued := true;
        case Genesis(g) =>
          match g {
            case AwaitingGenesisThreshold(es, q) =>
              stage := Genesis(AwaitingGenesisThreshold(es, q + [d]));
            case ProposingGenesis(b) =>
              stage := Genesis(ProposingGenesis(b.(queuedOps := b.queuedOps + [d])));
            case AccumulatingGenesis(a) =>
              stage := Genesis(AccumulatingGenesis(a.(queuedOps := a.queuedOps + [d])));
          }
          queued := true;
        case _ =>
          queued := false;
      }
    }

    /** node_state reads the stage only. */
    method NodeState() returns (r: Result<Lifecycle.NodeState>)
      ensures r.Ok? <==> stage.Adult? || stage.Elder?
      ensures r == NodeStateOf(stage)
    {
      match stage {
        case Elder(d) => r := Ok(ElderNode(d.elderState));
        case Adult(a) => r := Ok(AdultNode(a.nodeId));
        case _ => r := Err(InvalidOperation);
      }
    }

    method ProcessNodeDuty(snap: Snapshot, nd: NodeDuty) returns (r: Result<seq<Op>>)
      modifies this
      ensures Step(stage, r) == Lifecycle.ProcessNodeDuty(old(stage), info, snap, nd)
    {
      match nd {
        case RegisterWallet(wallet) => r := RegisterWallet(wallet);
        case AssumeAdultDuties => r := AssumeAdultDuties(snap);
        case AssumeElderDuties(knowledge) => r := BeginTransitionToElder(snap, knowledge);
        case ReceiveGenesisProposal(credit, sig) => r := ReceiveGenesisProposal(credit, sig);
        case ReceiveGenesisAccumulation(signedCredit, sig) => r := ReceiveGenesisAccumulation(snap, signedCredit, sig);
        case InitiateElderChange(knowledge) => r := InitiateElderChange(knowledge);
        case FinishElderChange(previousKey, newKey) => r := FinishElderChange(previousKey, newKey);
        case InitSectionWallet(wallet) => r := FinishTransitionToElder(snap, wallet, None);
        case NodeNoOp => r := Ok([]);
        case StorageFull => r := Ok([SendStorageFull(snap.publicKey)]);
      }
    }

    method RegisterWallet(wallet: Key) returns (r: Result<seq<Op>>)
      ensures Step(stage, r) == RegisterWalletStep(stage, wallet)
    {
      var nodeState := NodeState();
      if nodeState.Err? {
        return Err(nodeState.error);
      }
      r := Ok([SendRegisterWallet(wallet, NodeIdOf(nodeState.value))]);
    }

    method AssumeAdultDuties(snap: Snapshot) returns (r: Result<seq<Op>>)
      modifies this
      ensures Step(stage, r) == Lifecycle.AssumeAdultDuties(old(stage), info, snap)
    {
      if stage.Adult? {
        return Ok([]);
      }
      stage := Adult(AdultDuties(snap.publicKey));
      r := Ok([RegisterWalletDuty(info.rewardKey)]);
    }

    method BeginTransitionToElder(snap: Snapshot, elderState: ElderState) returns (r: Result<seq<Op>>)
      modifies this
      ensures Step(stage, r) == Lifecycle.BeginTransitionToElder(old(stage), info, snap, elderState)
    {
      if stage.Elder? || stage.AssumingElderDuties? || IsAwaiting(stage) {
        return Ok([]);
      } else if !info.genesis && stage.Infant? {
        return Err(InvalidOperation);
      }
      var isGenesisSection := snap.prefixEmpty;
      var elderCount := snap.elderCount;
      var sectionChainLen := snap.sectionChainLen;
      if isGenesisSection && elderCount == GenesisElderCount && stage.Adult? && sectionChainLen <= GenesisChainBound {
        var credit := GenesisCredit(elderState);
        var signatures: map<nat, Share> := map[];
        var creditSigShare := SignAsElder(elderState, OfCredit(credit));
        signatures := signatures[creditSigShare.index := creditSigShare.share];
        stage := Genesis(ProposingGenesis(GenesisProposal(elderState, credit, signatures, None, [])));
        return Ok([ProposeGenesis(credit, creditSigShare, credit.recipient)]);
      } else if isGenesisSection && elderCount < GenesisElderCount && sectionChainLen <= GenesisChainBound {
        stage := Genesis(AwaitingGenesisThreshold(elderState, []));
        return Ok([]);
      }
      var walletKey := elderState.sectionKey;
      stage := AssumingElderDuties(elderState, []);
      r := Ok([GetSectionWalletHistory(walletKey)]);
    }

    method ReceiveGenesisProposal(credit: Credit, sig: SignatureShare) returns (r: Result<seq<Op>>)
      modifies this
      ensures Step(stage, r) == Lifecycle.ReceiveGenesisProposal(old(stage), credit, sig)
    {
      if IsAccumulating(stage) || stage.Elder? {
        return Ok([]);
      }
      var next: Stage;
      var cmd: Op;
      match stage {
        case Genesis(AwaitingGenesisThreshold(elderState, queuedOps)) =>
          var signatures: map<nat, Share> := map[];
          signatures := signatures[sig.index := sig.share];
          var creditSigShare := SignAsElder(elderState, OfCredit(credit));
          signatures := signatures[creditSigShare.index := creditSigShare.share];
          next := Genesis(ProposingGenesis(GenesisProposal(elderState, credit, signatures, None, queuedOps)));
          cmd := ProposeGenesis(credit, creditSigShare, elderState.sectionKey);
        case Genesis(ProposingGenesis(bootstrap)) =>
          var added := AddProposalShare(bootstrap, sig);
          stage := Genesis(ProposingGenesis(added));
          if added.pendingAgreement.Some? {
            var signedCredit := added.pendingAgreement.value;
            var signatures: map<nat, Share> := map[];
            var creditSigShare := SignAsElder(added.elderState, OfSignedCredit(signedCredit));
            signatures := signatures[creditSigShare.index := creditSigShare.share];
            next := Genesis(AccumulatingGenesis(GenesisAccumulation(added.elderState, signedCredit, signatures, None, added.queuedOps)));
            cmd := AccumulateGenesis(signedCredit, creditSigShare, added.elderState.sectionKey);
          } else {
            return Ok([]);
          }
        case _ =>
          return Err(InvalidOperation);
      }
      stage := next;
      r := Ok([cmd]);
    }

    method ReceiveGenesisAccumulation(snap: Snapshot, signedCredit: SignedCredit, sig: SignatureShare) returns (r: Result<seq<Op>>)
      modifies this
      ensures Step(stage, r) == Lifecycle.ReceiveGenesisAccumulation(old(stage), info, snap, signedCredit, sig)
    {
      if stage.Elder? {
        return Ok([]);
      }
      match stage {
        case Genesis(ProposingGenesis(bootstrap)) =>
          var signatures: map<nat, Share> := map[];
          signatures := signatures[sig.index := sig.share];
          var creditSigShare := SignAsElder(bootstrap.elderState, OfSignedCredit(signedCredit));
          signatures := signatures[creditSigShare.index := creditSigShare.share];
          stage := Genesis(AccumulatingGenesis(GenesisAccumulation(bootstrap.elderState, signedCredit, signatures, None, bootstrap.queuedOps)));
          r := Ok([]);
        case Genesis(AccumulatingGenesis(bootstrap)) =>
          var added := AddAccumulationShare(bootstrap, sig);
          stage := Genesis(AccumulatingGenesis(added));
          if added.pendingAgreement.Some? {
            // take the agreement out of the round, then add our own share over it
            var proof := added.pendingAgreement.value;
            var creditSigShare := SignAsElder(added.elderState, OfProof(proof));
            var taken := added.(signatures := added.signatures[creditSigShare.index := creditSigShare.share], pendingAgreement := None);
            stage := Genesis(AccumulatingGenesis(taken));
            var genesis := TransferPropagated(proof);
            r := FinishTransitionToElder(snap, WalletInfo(proof.debitingReplicasKeys, [proof]), Some(genesis));
            return;
          }
          r := Ok([]);
        case _ =>
          r := Err(InvalidOperation);
      }
    }

    method FinishTransitionToElder(snap: Snapshot, wallet: WalletInfo, genesis: Option<TransferPropagated>) returns (r: Result<seq<Op>>)
      modifies this
      ensures Step(stage, r) == Lifecycle.FinishTransitionToElder(old(stage), info, snap, wallet, genesis)
    {
      var elderState: ElderState;
      var queuedDuties: seq<ElderDuty>;
      match stage {
        case Elder(_) =>
          return Ok([]);
        case Infant =>
          if info.genesis {
            elderState, queuedDuties := snap.genesisKnowledge, [];
          } else {
            return Err(InvalidOperation);
          }
        case Adult(_) =>
          return Err(InvalidOperation);
        case Genesis(g) =>
          match g {
            case AwaitingGenesisThreshold(_, _) =>
              return Err(InvalidOperation);
            case ProposingGenesis(_) =>
              return Err(InvalidOperation);
            case AccumulatingGenesis(bootstrap) =>
              elderState, queuedDuties := bootstrap.elderState, bootstrap.queuedOps;
          }
        case AssumingElderDuties(es, queue) =>
          elderState, queuedDuties := es, queue;
      }

      // The new elder subsystem starts, then takes the queued duties front first.
      var ops: seq<Op> := [Initiated(genesis)];
      var duties, dutyOps := DrainInto(ElderDuties(elderState, wallet, []), queuedDuties);
      ops := ops + dutyOps;
      stage := Elder(duties);
      // Rewards learn of this node and of its reward wallet, in that order.
      ops := ops + [AddNewNode(elderState.nodeId)];
      ops := ops + [SetNodeWallet(elderState.nodeId, info.rewardKey)];
      assert ops == [Initiated(genesis)] + dutyOps + [AddNewNode(elderState.nodeId), SetNodeWallet(elderState.nodeId, info.rewardKey)];
      r := Ok(ops);
    }

    /** The drain loop of finish_transition_to_elder: each queued duty, front first, goes to the elder subsystem. */
    static method DrainInto(initial: ElderDuties, queuedDuties: seq<ElderDuty>) returns (duties: ElderDuties, ops: seq<Op>)
      ensures (duties, ops) == Replay(initial, queuedDuties)
    {
      duties, ops := initial, [];
      for i := 0 to |queuedDuties|
        invariant (duties, ops) == Replay(initial, queuedDuties[..i])
      {
        assert queuedDuties[..i + 1][..i] == queuedDuties[..i];
        var processed := ProcessElderDuty(duties, queuedDuties[i]);
        duties := processed.0;
        ops := ops + processed.1;
      }
      assert queuedDuties[..|queuedDuties|] == queuedDuties;
    }

    method InitiateElderChange(knowledge: ElderState) returns (r: Result<seq<Op>>)
      ensures Step(stage, r) == Lifecycle.InitiateElderChange(stage, knowledge)
    {
      match stage {
        case Elder(_) => r := Ok([ElderChangeInitiated(knowledge)]);
        case _ => r := Ok([]);
      }
    }

    method FinishElderChange(previousKey: Key, newKey: Key) returns (r: Result<seq<Op>>)
      ensures Step(stage, r) == Lifecycle.FinishElderChange(stage, previousKey, newKey)
    {
      match stage {
        case Elder(_) => r := Ok([ElderChangeFinished(previousKey, newKey)]);
        case _ => r := Ok([]);
      }
    }
  }
}
