/**
 * The node's stage machine as values: the stages a node goes through (Infant, Adult,
 * the three genesis sub-stages, AssumingElderDuties, Elder) and, for every lifecycle
 * handler of NodeDuties, a function from the old stage and the event to the new stage
 * and the handler's result. These functions are the specification the NodeDuties class
 * is proved against; the properties the node promises are proved about them here.
 */
module Lifecycle {
  import opened Wrappers
  import opened Network
  import opened NodeOps
  import opened GenesisRounds

  /** The adult subsystem (AdultDuties); only the node id it was built for is kept. */
  datatype AdultDuties = AdultDuties(nodeId: Key)

  /** The elder subsystem (ElderDuties): built from a wallet history, it records the elder duties it processes, in order. */
  datatype ElderDuties = ElderDuties(elderState: ElderState, wallet: WalletInfo, processed: seq<ElderDuty>)

  datatype Stage =
    | Infant
    | Adult(adultDuties: AdultDuties)
    | Genesis(genesisStage: GenesisStage)
    | AssumingElderDuties(elderState: ElderState, queue: seq<ElderDuty>)
    | Elder(elderDuties: ElderDuties)

  datatype GenesisStage =
    | AwaitingGenesisThreshold(elderState: ElderState, queue: seq<ElderDuty>)
    | ProposingGenesis(round1: GenesisProposal)
    | AccumulatingGenesis(round2: GenesisAccumulation)

  /** What node_state reports (NodeState). */
  datatype NodeState = AdultNode(adultId: Key) | ElderNode(elder: ElderState)

  /** A handler's effect: the stage it leaves behind and what it returns. */
  datatype Step = Step(stage: Stage, result: Result<seq<Op>>)

  predicate IsAwaiting(s: Stage) { s.Genesis? && s.genesisStage.AwaitingGenesisThreshold? }
  predicate IsProposing(s: Stage) { s.Genesis? && s.genesisStage.ProposingGenesis? }
  predicate IsAccumulating(s: Stage) { s.Genesis? && s.genesisStage.AccumulatingGenesis? }

  /** The stages in which elder duties are queued rather than run. */
  predicate Transitional(s: Stage) { s.AssumingElderDuties? || s.Genesis? }

  /** The duty queue of a transitional stage. */
  function Queue(s: Stage): seq<ElderDuty>
    requires Transitional(s)
  {
    match s
    case AssumingElderDuties(_, q) => q
    case Genesis(g) =>
      match g
      case AwaitingGenesisThreshold(_, q) => q
      case ProposingGenesis(b) => b.queuedOps
      case AccumulatingGenesis(a) => a.queuedOps
  }

  /** The stage with its duty queue emptied: what a stage holds besides its queue. */
  function ClearQueue(s: Stage): Stage
  {
    match s
    case AssumingElderDuties(es, _) => AssumingElderDuties(es, [])
    case Genesis(g) =>
      Genesis(match g
              case AwaitingGenesisThreshold(es, _) => AwaitingGenesisThreshold(es, [])
              case ProposingGenesis(b) => ProposingGenesis(b.(queuedOps := []))
              case AccumulatingGenesis(a) => AccumulatingGenesis(a.(queuedOps := [])))
    case _ => s
  }

  /** Two stages are the same variant (and, for genesis, the same sub-stage). */
  predicate SameVariant(a: Stage, b: Stage)
  {
    && a.Infant? == b.Infant?
    && a.Adult? == b.Adult?
    && a.AssumingElderDuties? == b.AssumingElderDuties?
    && a.Elder? == b.Elder?
    && IsAwaiting(a) == IsAwaiting(b)
    && IsProposing(a) == IsProposing(b)
    && IsAccumulating(a) == IsAccumulating(b)
  }

  /**
   * The elder duties this node has taken on: those its elder subsystem has processed once
   * it is an Elder, those waiting in the queue while it is in transition, none before.
   */
  function Accepted(s: Stage): seq<ElderDuty>
  {
    if s.Elder? then s.elderDuties.processed
    else if Transitional(s) then Queue(s)
    else []
  }

  /**
   * What a genesis round in progress always satisfies: it holds an entry under this
   * node's own share index (a peer's share under the same index replaces ours, since
   * shares are not checked), and it never sits on an agreement it has not acted on (the
   * handler that produces the agreement moves on to the next round, or to Elder, at once).
   */
  predicate RoundsWellFormed(s: Stage)
  {
    match s
    case Genesis(ProposingGenesis(b)) => b.pendingAgreement.None? && b.elderState.keyIndex in b.signatures
    case Genesis(AccumulatingGenesis(a)) => a.pendingAgreement.None? && a.elderState.keyIndex in a.signatures
    case _ => true
  }

  // ---------------------------------------------------------------- duty queue

  /**
   * try_enqueue_elder_duty: in a transitional stage the duty joins the back of the queue
   * and nothing else changes; in Infant, Adult and Elder nothing changes and the duty is
   * refused. The stage variant never changes.
   */
  function TryEnqueue(s: Stage, d: ElderDuty): (r: (Stage, bool))
    ensures r.1 <==> Transitional(s)
    ensures SameVariant(r.0, s)
    ensures r.1 ==> Queue(r.0) == Queue(s) + [d] && ClearQueue(r.0) == ClearQueue(s)
    ensures !r.1 ==> r.0 == s
  {
    match s
    case AssumingElderDuties(es, q) => (AssumingElderDuties(es, q + [d]), true)
    case Genesis(g) =>
      (match g
       case AwaitingGenesisThreshold(es, q) => (Genesis(AwaitingGenesisThreshold(es, q + [d])), true)
       case ProposingGenesis(b) => (Genesis(ProposingGenesis(b.(queuedOps := b.queuedOps + [d]))), true)
       case AccumulatingGenesis(a) => (Genesis(AccumulatingGenesis(a.(queuedOps := a.queuedOps + [d]))), true))
    case _ => (s, false)
  }

  // ---------------------------------------------------------------- elder subsystem

  /** ElderDuties::process_elder_duty: the duty is recorded and answered with its tag. */
  function ProcessElderDuty(d: ElderDuties, duty: ElderDuty): (ElderDuties, seq<Op>)
  {
    (d.(processed := d.processed + [duty]), [ElderDutyDone(duty)])
  }

  /** The queued duties fed one by one, front first, to the elder subsystem: its final state and the operations, in order. */
  function Replay(d: ElderDuties, q: seq<ElderDuty>): (ElderDuties, seq<Op>)
    decreases |q|
  {
    if q == [] then (d, [])
    else
      var before := Replay(d, q[..|q| - 1]);
      var last := ProcessElderDuty(before.0, q[|q| - 1]);
      (last.0, before.1 + last.1)
  }

  /** Replaying a queue processes every duty exactly once, in FIFO order. */
  lemma {:induction false} ReplayInOrder(d: ElderDuties, q: seq<ElderDuty>)
    ensures Replay(d, q).0 == d.(processed := d.processed + q)
    ensures |Replay(d, q).1| == |q|
    ensures forall i :: 0 <= i < |q| ==> Replay(d, q).1[i] == ElderDutyDone(q[i])
    decreases |q|
  {
    if q != [] {
      var init := q[..|q| - 1];
      ReplayInOrder(d, init);
      assert init + [q[|q| - 1]] == q;
    }
  }

  /**
   * The operations of a completed promotion: what initiating the elder subsystem returns,
   * then one answer per queued duty in queue order, then AddNewNode and SetNodeWallet last.
   */
  predicate PromotionOps(ops: seq<Op>, q: seq<ElderDuty>, genesis: Option<TransferPropagated>, nodeId: Key, wallet: Key)
  {
    && |ops| == |q| + 3
    && ops[0] == Initiated(genesis)
    && (forall i :: 0 <= i < |q| ==> ops[i + 1] == ElderDutyDone(q[i]))
    && ops[|q| + 1] == AddNewNode(nodeId)
    && ops[|q| + 2] == SetNodeWallet(nodeId, wallet)
  }

  /** The last part of finish_transition_to_elder: build the elder subsystem, initiate it, drain the queue into it, register for rewards. */
  function Promote(es: ElderState, q: seq<ElderDuty>, info: NodeInfo, wallet: WalletInfo, genesis: Option<TransferPropagated>): (r: Step)
    ensures r.stage == Elder(ElderDuties(es, wallet, q))
    ensures r.result.Ok? && PromotionOps(r.result.value, q, genesis, es.nodeId, info.rewardKey)
  {
    var replayed := Replay(ElderDuties(es, wallet, []), q);
    ReplayInOrder(ElderDuties(es, wallet, []), q);
    assert [] + q == q;
    Step(Elder(replayed.0),
         Ok([Initiated(genesis)] + replayed.1 + [AddNewNode(es.nodeId), SetNodeWallet(es.nodeId, info.rewardKey)]))
  }

  // ---------------------------------------------------------------- handlers

  /** node_state: only an Adult or an Elder has a node state. */
  function NodeStateOf(s: Stage): (r: Result<NodeState>)
    ensures r.Ok? <==> s.Adult? || s.Elder?
    ensures s.Adult? ==> r == Ok(AdultNode(s.adultDuties.nodeId))
    ensures s.Elder? ==> r == Ok(ElderNode(s.elderDuties.elderState))
    ensures r.Err? ==> r.error == InvalidOperation
  {
    match s
    case Elder(d) => Ok(ElderNode(d.elderState))
    case Adult(a) => Ok(AdultNode(a.nodeId))
    case _ => Err(InvalidOperation)
  }

  function NodeIdOf(n: NodeState): Key
  {
    match n
    case AdultNode(id) => id
    case ElderNode(es) => es.nodeId
  }

  /** register_wallet: an Adult or Elder sends the registration under its own node id; nobody else can. */
  function RegisterWalletStep(s: Stage, wallet: Key): (r: Step)
    ensures r.stage == s
    ensures r.result.Ok? <==> s.Adult? || s.Elder?
    ensures s.Adult? ==> r.result == Ok([SendRegisterWallet(wallet, s.adultDuties.nodeId)])
    ensures s.Elder? ==> r.result == Ok([SendRegisterWallet(wallet, s.elderDuties.elderState.nodeId)])
    ensures r.result.Err? ==> r.result.error == InvalidOperation
  {
    match NodeStateOf(s)
    case Err(e) => Step(s, Err(e))
    case Ok(n) => Step(s, Ok([SendRegisterWallet(wallet, NodeIdOf(n))]))
  }

  /**
   * assume_adult_duties: a no-op for an Adult; from every other stage (including the
   * transitional ones and Elder) the node becomes an Adult and asks to register its
   * reward wallet, once.
   */
  function AssumeAdultDuties(s: Stage, info: NodeInfo, snap: Snapshot): (r: Step)
    ensures r.stage.Adult?
    ensures s.Adult? ==> r == Step(s, Ok([]))
    ensures !s.Adult? ==> r.stage == Adult(AdultDuties(snap.publicKey)) && r.result == Ok([RegisterWalletDuty(info.rewardKey)])
  {
    if s.Adult? then Step(s, Ok([]))
    else Step(Adult(AdultDuties(snap.publicKey)), Ok([RegisterWalletDuty(info.rewardKey)]))
  }

  /** The stages in which begin_transition_to_elder is a redundant event. */
  predicate BeginIsRedundant(s: Stage) { s.Elder? || s.AssumingElderDuties? || IsAwaiting(s) }

  /** The fifth elder of the first section, still an Adult, with a short section chain: it proposes genesis. */
  predicate GenesisOriginator(s: Stage, snap: Snapshot)
  {
    snap.prefixEmpty && snap.elderCount == GenesisElderCount && s.Adult? && snap.sectionChainLen <= GenesisChainBound
  }

  /** A first-section elder before the fifth: it waits for the genesis proposal. */
  predicate GenesisParticipant(snap: Snapshot)
  {
    snap.prefixEmpty && snap.elderCount < GenesisElderCount && snap.sectionChainLen <= GenesisChainBound
  }

  /**
   * begin_transition_to_elder, with `es` the elder state built from the elder knowledge.
   * Redundant in Elder, AssumingElderDuties and AwaitingGenesisThreshold; refused for a
   * non-genesis Infant; otherwise exactly one of three branches: propose genesis, await
   * the genesis threshold, or assume elder duties and query the section wallet history.
   * Every new stage starts with an empty queue.
   */
  function BeginTransitionToElder(s: Stage, info: NodeInfo, snap: Snapshot, es: ElderState): (r: Step)
    ensures BeginIsRedundant(s) ==> r == Step(s, Ok([]))
    ensures r.result.Err? <==> s.Infant? && !info.genesis
    ensures r.result.Err? ==> r.stage == s && r.result.error == InvalidOperation
    ensures !BeginIsRedundant(s) && r.result.Ok? && GenesisOriginator(s, snap) ==>
              var credit := GenesisCredit(es);
              var share := SignAsElder(es, OfCredit(credit));
              && r.stage == Genesis(ProposingGenesis(GenesisProposal(es, credit, map[share.index := share.share], None, [])))
              && r.result == Ok([ProposeGenesis(credit, share, es.sectionKey)])
    ensures !BeginIsRedundant(s) && r.result.Ok? && !GenesisOriginator(s, snap) && GenesisParticipant(snap) ==>
              r == Step(Genesis(AwaitingGenesisThreshold(es, [])), Ok([]))
    ensures !BeginIsRedundant(s) && r.result.Ok? && !GenesisOriginator(s, snap) && !GenesisParticipant(snap) ==>
              r == Step(AssumingElderDuties(es, []), Ok([GetSectionWalletHistory(es.sectionKey)]))
    // genesis exclusivity: only the first section, with a short chain, enters a genesis round here,
    // only an Adult with five elders proposes, and nobody starts accumulating
    ensures r.stage != s && r.stage.Genesis? ==> snap.prefixEmpty && snap.sectionChainLen <= GenesisChainBound
    ensures IsProposing(r.stage) ==> s.Adult? && snap.elderCount == GenesisElderCount
    ensures !IsAccumulating(r.stage)
    ensures IsProposing(r.stage) ==> r.stage.genesisStage.round1.proposal.amount == GenesisAmount
    ensures r.stage != s ==> Transitional(r.stage) && Queue(r.stage) == []
  {
    if BeginIsRedundant(s) then Step(s, Ok([]))
    else if !info.genesis && s.Infant? then Step(s, Err(InvalidOperation))
    else if GenesisOriginator(s, snap) then
      var credit := GenesisCredit(es);
      var share := SignAsElder(es, OfCredit(credit));
      var signatures := map[share.index := share.share];
      Step(Genesis(ProposingGenesis(GenesisProposal(es, credit, signatures, None, []))),
           Ok([ProposeGenesis(credit, share, credit.recipient)]))
    else if GenesisParticipant(snap) then
      Step(Genesis(AwaitingGenesisThreshold(es, [])), Ok([]))
    else
      Step(AssumingElderDuties(es, []), Ok([GetSectionWalletHistory(es.sectionKey)]))
  }

  /**
   * receive_genesis_proposal: redundant once accumulating or Elder; refused in Infant,
   * Adult and AssumingElderDuties. Awaiting the threshold, the node starts round 1 with
   * the sender's share and its own over the received credit and broadcasts its share.
   * Proposing, it records the share; once that yields the signed credit it starts round 2
   * with its own share over it and broadcasts that. The queue always moves along.
   */
  function ReceiveGenesisProposal(s: Stage, credit: Credit, sig: SignatureShare): (r: Step)
    ensures IsAccumulating(s) || s.Elder? ==> r == Step(s, Ok([]))
    ensures s.Infant? || s.Adult? || s.AssumingElderDuties? ==> r == Step(s, Err(InvalidOperation))
    ensures r.result.Err? ==> r.stage == s
    ensures IsAwaiting(s) ==>
              var es := s.genesisStage.elderState;
              var own := SignAsElder(es, OfCredit(credit));
              && r.stage == Genesis(ProposingGenesis(GenesisProposal(es, credit, map[sig.index := sig.share][own.index := own.share], None, Queue(s))))
              && r.result == Ok([ProposeGenesis(credit, own, es.sectionKey)])
    ensures IsProposing(s) ==>
              var b := AddProposalShare(s.genesisStage.round1, sig);
              if b.pendingAgreement.None? then r == Step(Genesis(ProposingGenesis(b)), Ok([]))
              else
                var own := SignAsElder(b.elderState, OfSignedCredit(b.pendingAgreement.value));
                && r.stage == Genesis(AccumulatingGenesis(GenesisAccumulation(b.elderState, b.pendingAgreement.value, map[own.index := own.share], None, Queue(s))))
                && r.result == Ok([AccumulateGenesis(b.pendingAgreement.value, own, b.elderState.sectionKey)])
    // the queue and the node's key material move with the stage; a round keeps its proposal
    ensures Transitional(s) ==> Transitional(r.stage) && Queue(r.stage) == Queue(s)
    ensures IsProposing(s) && IsProposing(r.stage) ==> r.stage.genesisStage.round1.proposal == s.genesisStage.round1.proposal
    ensures IsAccumulating(r.stage) && IsProposing(s) && RoundsWellFormed(s) ==> r.stage.genesisStage.round2.agreedProposal.credit == s.genesisStage.round1.proposal
  {
    if IsAccumulating(s) || s.Elder? then Step(s, Ok([]))
    else
      match s
      case Genesis(AwaitingGenesisThreshold(es, q)) =>
        var own := SignAsElder(es, OfCredit(credit));
        var signatures := map[sig.index := sig.share][own.index := own.share];
        Step(Genesis(ProposingGenesis(GenesisProposal(es, credit, signatures, None, q))),
             Ok([ProposeGenesis(credit, own, es.sectionKey)]))
      case Genesis(ProposingGenesis(bootstrap)) =>
        var b := AddProposalShare(bootstrap, sig);
        if b.pendingAgreement.Some? then
          var signedCredit := b.pendingAgreement.value;
          var own := SignAsElder(b.elderState, OfSignedCredit(signedCredit));
          Step(Genesis(AccumulatingGenesis(GenesisAccumulation(b.elderState, signedCredit, map[own.index := own.share], None, b.queuedOps))),
               Ok([AccumulateGenesis(signedCredit, own, b.elderState.sectionKey)]))
        else
          Step(Genesis(ProposingGenesis(b)), Ok([]))
      case _ => Step(s, Err(InvalidOperation))
  }

  /**
   * finish_transition_to_elder: redundant for an Elder; refused in Adult, the first two
   * genesis sub-stages and, on a non-genesis node, Infant. Otherwise the node becomes an
   * Elder whose elder subsystem has processed exactly the queued duties, in order, and
   * the operations end with the two reward registrations.
   */
  function FinishTransitionToElder(s: Stage, info: NodeInfo, snap: Snapshot, wallet: WalletInfo, genesis: Option<TransferPropagated>): (r: Step)
    ensures s.Elder? ==> r == Step(s, Ok([]))
    ensures r.result.Err? <==> s.Adult? || IsAwaiting(s) || IsProposing(s) || (s.Infant? && !info.genesis)
    ensures r.result.Err? ==> r.stage == s && r.result.error == InvalidOperation
    ensures s.Infant? && info.genesis ==>
              && r.stage == Elder(ElderDuties(snap.genesisKnowledge, wallet, []))
              && r.result.Ok? && PromotionOps(r.result.value, [], genesis, snap.genesisKnowledge.nodeId, info.rewardKey)
    ensures s.AssumingElderDuties? || IsAccumulating(s) ==>
              var es := if s.AssumingElderDuties? then s.elderState else s.genesisStage.round2.elderState;
              && r.stage == Elder(ElderDuties(es, wallet, Queue(s)))
              && r.result.Ok? && PromotionOps(r.result.value, Queue(s), genesis, es.nodeId, info.rewardKey)
  {
    match s
    case Elder(_) => Step(s, Ok([]))
    case Infant =>
      if info.genesis then Promote(snap.genesisKnowledge, [], info, wallet, genesis)
      else Step(s, Err(InvalidOperation))
    case Adult(_) => Step(s, Err(InvalidOperation))
    case Genesis(g) =>
      (match g
       case AccumulatingGenesis(a) => Promote(a.elderState, a.queuedOps, info, wallet, genesis)
       case _ => Step(s, Err(InvalidOperation)))
    case AssumingElderDuties(es, q) => Promote(es, q, info, wallet, genesis)
  }

  /**
   * receive_genesis_accumulation: redundant for an Elder; refused in Infant, Adult,
   * AwaitingGenesisThreshold and AssumingElderDuties. Proposing, the node starts round 2
   * over the received signed credit with the sender's share and its own, returning
   * nothing. Accumulating, it records the share; once that yields the credit proof it adds
   * its own share over the proof and finishes the transition to Elder with the proof as
   * the section's genesis wallet history.
   */
  function ReceiveGenesisAccumulation(s: Stage, info: NodeInfo, snap: Snapshot, signedCredit: SignedCredit, sig: SignatureShare): (r: Step)
    ensures s.Elder? ==> r == Step(s, Ok([]))
    ensures s.Infant? || s.Adult? || IsAwaiting(s) || s.AssumingElderDuties? ==> r == Step(s, Err(InvalidOperation))
    ensures r.result.Err? ==> r.stage == s
    ensures IsProposing(s) ==>
              var es := s.genesisStage.round1.elderState;
              var own := SignAsElder(es, OfSignedCredit(signedCredit));
              r == Step(Genesis(AccumulatingGenesis(GenesisAccumulation(es, signedCredit, map[sig.index := sig.share][own.index := own.share], None, Queue(s)))), Ok([]))
    ensures IsAccumulating(s) ==>
              var a := AddAccumulationShare(s.genesisStage.round2, sig);
              if a.pendingAgreement.None? then r == Step(Genesis(AccumulatingGenesis(a)), Ok([]))
              else
                var proof := a.pendingAgreement.value;
                && r.stage == Elder(ElderDuties(a.elderState, WalletInfo(proof.debitingReplicasKeys, [proof]), Queue(s)))
                && r.result.Ok?
                && PromotionOps(r.result.value, Queue(s), Some(TransferPropagated(proof)), a.elderState.nodeId, info.rewardKey)
    // no queued duty is lost: it is still queued, or it has been processed by the new Elder
    ensures r.result.Ok? ==> Accepted(r.stage) == Accepted(s)
  {
    if s.Elder? then Step(s, Ok([]))
    else
      match s
      case Genesis(ProposingGenesis(bootstrap)) =>
        var own := SignAsElder(bootstrap.elderState, OfSignedCredit(signedCredit));
        var signatures := map[sig.index := sig.share][own.index := own.share];
        Step(Genesis(AccumulatingGenesis(GenesisAccumulation(bootstrap.elderState, signedCredit, signatures, None, bootstrap.queuedOps))),
             Ok([]))
      case Genesis(AccumulatingGenesis(bootstrap)) =>
        var a := AddAccumulationShare(bootstrap, sig);
        if a.pendingAgreement.Some? then
          var proof := a.pendingAgreement.value;
          var own := SignAsElder(a.elderState, OfProof(proof));
          var taken := a.(signatures := a.signatures[own.index := own.share], pendingAgreement := None);
          FinishTransitionToElder(Genesis(AccumulatingGenesis(taken)), info, snap,
                                  WalletInfo(proof.debitingReplicasKeys, [proof]), Some(TransferPropagated(proof)))
        else
          Step(Genesis(AccumulatingGenesis(a)), Ok([]))
      case _ => Step(s, Err(InvalidOperation))
  }

  /** initiate_elder_change: forwarded to the elder subsystem in Elder, no operations otherwise. */
  function InitiateElderChange(s: Stage, knowledge: ElderState): (r: Step)
    ensures r.stage == s
    ensures !s.Elder? ==> r.result == Ok([])
    ensures s.Elder? ==> r.result == Ok([ElderChangeInitiated(knowledge)])
  {
    if s.Elder? then Step(s, Ok([ElderChangeInitiated(knowledge)])) else Step(s, Ok([]))
  }

  /** finish_elder_change: forwarded to the elder subsystem in Elder, no operations otherwise. */
  function FinishElderChange(s: Stage, previousKey: Key, newKey: Key): (r: Step)
    ensures r.stage == s
    ensures !s.Elder? ==> r.result == Ok([])
    ensures s.Elder? ==> r.result == Ok([ElderChangeFinished(previousKey, newKey)])
  {
    if s.Elder? then Step(s, Ok([ElderChangeFinished(previousKey, newKey)])) else Step(s, Ok([]))
  }

  /**
   * process_node_duty. A failing handler leaves the stage as it was, and no lifecycle event
   * loses a taken-on elder duty, except becoming an Adult and a repeated elder promotion
   * arriving during a genesis round.
   */
  function ProcessNodeDuty(s: Stage, info: NodeInfo, snap: Snapshot, nd: NodeDuty): (r: Step)
    ensures r.result.Err? ==> r.stage == s
    ensures nd.NodeNoOp? ==> r == Step(s, Ok([]))
    ensures !nd.AssumeAdultDuties? && !(nd.AssumeElderDuties? && (IsProposing(s) || IsAccumulating(s))) ==>
              Accepted(r.stage) == Accepted(s)
  {
    match nd
    case RegisterWallet(wallet) => RegisterWalletStep(s, wallet)
    case AssumeAdultDuties => AssumeAdultDuties(s, info, snap)
    case AssumeElderDuties(knowledge) => BeginTransitionToElder(s, info, snap, knowledge)
    case ReceiveGenesisProposal(credit, sig) => ReceiveGenesisProposal(s, credit, sig)
    case ReceiveGenesisAccumulation(signedCredit, sig) => ReceiveGenesisAccumulation(s, info, snap, signedCredit, sig)
    case InitiateElderChange(knowledge) => InitiateElderChange(s, knowledge)
    case FinishElderChange(previousKey, newKey) => FinishElderChange(s, previousKey, newKey)
    case InitSectionWallet(wallet) => FinishTransitionToElder(s, info, snap, wallet, None)
    case NodeNoOp => Step(s, Ok([]))
    case StorageFull => Step(s, Ok([SendStorageFull(snap.publicKey)]))
  }

  /**
   * process: an adult duty runs only in Adult, otherwise a Logic error. An elder duty runs
   * in Elder, is queued in a transitional stage (returning nothing), and is a Logic error
   * otherwise; either way a taken-on duty is appended to what the node has accepted.
   */
  function Process(s: Stage, info: NodeInfo, snap: Snapshot, duty: NetworkDuty): (r: Step)
    ensures r.result.Err? ==> r.stage == s
    ensures duty.NoOp? ==> r == Step(s, Ok([]))
    ensures duty.RunAsAdult? ==>
              r.stage == s && r.result == (if s.Adult? then Ok([AdultDutyDone(duty.adultDuty)]) else Err(Logic))
    ensures duty.RunAsElder? && !s.Elder? ==> (r.result == Ok([]) <==> Transitional(s))
    ensures duty.RunAsElder? && !s.Elder? && !Transitional(s) ==> r == Step(s, Err(Logic))
    ensures duty.RunAsElder? && (s.Elder? || Transitional(s)) ==>
              && r.result.Ok?
              && SameVariant(r.stage, s)
              && Accepted(r.stage) == Accepted(s) + [duty.elderDuty]
  {
    match duty
    case RunAsAdult(d) =>
      if s.Adult? then Step(s, Ok([AdultDutyDone(d)])) else Step(s, Err(Logic))
    case RunAsElder(d) =>
      if s.Elder? then
        var processed := ProcessElderDuty(s.elderDuties, d);
        Step(Elder(processed.0), Ok(processed.1))
      else
        var enqueued := TryEnqueue(s, d);
        if enqueued.1 then Step(enqueued.0, Ok([])) else Step(s, Err(Logic))
    case RunAsNode(nd) => ProcessNodeDuty(s, info, snap, nd)
    case NoOp => Step(s, Ok([]))
  }

  // ---------------------------------------------------------------- properties

  /** Assuming adult duties twice: the second time is a no-op. */
  lemma AssumeAdultIsIdempotent(s: Stage, info: NodeInfo, snap: Snapshot, snap': Snapshot)
    ensures var first := AssumeAdultDuties(s, info, snap);
            AssumeAdultDuties(first.stage, info, snap') == Step(first.stage, Ok([]))
  {
  }

  /** Every handler keeps a genesis round well formed. */
  lemma ProcessKeepsRoundsWellFormed(s: Stage, info: NodeInfo, snap: Snapshot, duty: NetworkDuty)
    requires RoundsWellFormed(s)
    ensures RoundsWellFormed(Process(s, info, snap, duty).stage)
  {
  }

  /** The elder duties `ds` handed to process() one after the other. */
  function RunElderDuties(s: Stage, info: NodeInfo, snap: Snapshot, ds: seq<ElderDuty>): Stage
    decreases |ds|
  {
    if ds == [] then s
    else RunElderDuties(Process(s, info, snap, RunAsElder(ds[0])).stage, info, snap, ds[1..])
  }

  /** process() queues an elder duty handed in during a transition. */
  lemma ElderDutyQueuedInTransition(s: Stage, info: NodeInfo, snap: Snapshot, d: ElderDuty)
    requires Transitional(s)
    ensures Process(s, info, snap, RunAsElder(d)).stage == TryEnqueue(s, d).0
  {
  }

  /** Elder duties handed in during a transition are all queued, behind the ones already there, in arrival order. */
  lemma {:induction false} DutiesQueueInArrivalOrder(s: Stage, info: NodeInfo, snap: Snapshot, ds: seq<ElderDuty>)
    requires Transitional(s)
    ensures var s' := RunElderDuties(s, info, snap, ds);
            && SameVariant(s', s)
            && ClearQueue(s') == ClearQueue(s)
            && Queue(s') == Queue(s) + ds
    decreases |ds|
  {
    if ds != [] {
      var s1 := Process(s, info, snap, RunAsElder(ds[0])).stage;
      ElderDutyQueuedInTransition(s, info, snap, ds[0]);
      DutiesQueueInArrivalOrder(s1, info, snap, ds[1..]);
      assert [ds[0]] + ds[1..] == ds;
    }
  }

  /**
   * Queue replay: duties queued while assuming elder duties, or in a genesis round, are
   * processed by the new Elder in arrival order, and the two reward registrations come
   * after all of them.
   */
  lemma QueuedDutiesReplayedInOrder(s: Stage, info: NodeInfo, snap: Snapshot, ds: seq<ElderDuty>, wallet: WalletInfo, genesis: Option<TransferPropagated>)
    requires s.AssumingElderDuties? || IsAccumulating(s)
    ensures var r := FinishTransitionToElder(RunElderDuties(s, info, snap, ds), info, snap, wallet, genesis);
            && r.stage.Elder?
            && r.stage.elderDuties.processed == Queue(s) + ds
            && r.result.Ok?
            && PromotionOps(r.result.value, Queue(s) + ds, genesis, r.stage.elderDuties.elderState.nodeId, info.rewardKey)
  {
    DutiesQueueInArrivalOrder(s, info, snap, ds);
  }

  /**
   * As written, promoting a node again while either genesis round is in progress is not
   * treated as redundant: whatever the section looks like, the round is replaced by a
   * fresh AwaitingGenesisThreshold or AssumingElderDuties stage with an empty queue.
   */
  lemma RepeatedPromotionDropsGenesisQueue(s: Stage, info: NodeInfo, snap: Snapshot, es: ElderState)
    requires IsProposing(s) || IsAccumulating(s)
    ensures var r := BeginTransitionToElder(s, info, snap, es);
            && r.result.Ok?
            && (r.stage == Genesis(AwaitingGenesisThreshold(es, [])) || r.stage == AssumingElderDuties(es, []))
            && Accepted(r.stage) == []
            && (Queue(s) != [] ==> Accepted(s) != Accepted(r.stage))
  {
  }
}
