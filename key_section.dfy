/**
 * The wallet section of an elder (WalletSection): a two-variant value, PreElder while the
 * node is being promoted and Elder once enabled, each holding the section's transfers
 * and the elder state. Transfers and their replicas are opaque apart from the replica
 * info the section hands them.
 */
module KeySection {
  import opened Wrappers
  import opened Network
  import opened NodeOps

  /** The store-cost provider handed to the transfers (RateLimit); opaque. */
  datatype RateLimit = RateLimit(id: nat)

  /** What the replicas are told about this elder (ReplicaInfo); `signing` is the elder state it signs with. */
  datatype ReplicaInfo = ReplicaInfo(
    id: Key,
    keyIndex: nat,
    peerReplicas: PublicKeySet,
    sectionChain: seq<Key>,
    signing: ElderState,
    initiating: bool)

  datatype Replicas = Replicas(rootDir: string, info: ReplicaInfo)

  datatype Transfers = Transfers(replicas: Replicas, rateLimit: RateLimit)

  /** transfers() and elder_state_mut() are the shared fields `transfers` and `elderState` of both variants. */
  datatype WalletSection =
    | PreElder(transfers: Transfers, elderState: ElderState)
    | Elder(transfers: Transfers, elderState: ElderState)

  datatype KeySectionDuty = RunAsTransfers(transferDuty: TransferDuty) | NoOp

  /** The replica info both constructors build from an elder state; they differ only in `initiating`. */
  function ReplicaInfoOf(es: ElderState, initiating: bool): (info: ReplicaInfo)
  {
    ReplicaInfo(es.keyShare, es.keyIndex, es.publicKeySet, es.sectionChain, es, initiating)
  }

  /** transfer_replicas: replicas under the node's data directory, told about this elder as initiating. */
  function TransferReplicas(node: NodeInfo, es: ElderState): (r: Replicas)
    ensures r.rootDir == node.rootDir
    ensures r.info.initiating
    ensures r.info.id == es.keyShare && r.info.keyIndex == es.keyIndex
    ensures r.info.peerReplicas == es.publicKeySet && r.info.sectionChain == es.sectionChain
    ensures r.info.signing == es
  {
    Replicas(node.rootDir, ReplicaInfoOf(es, true))
  }

  /** pre_elder: always the PreElder variant, with new transfers over initiating replicas. */
  function PreElder(rateLimit: RateLimit, node: NodeInfo, es: ElderState): (w: WalletSection)
    ensures w.PreElder?
    ensures w.elderState == es
    ensures w.transfers == Transfers(TransferReplicas(node, es), rateLimit)
    ensures w.transfers.replicas.info.initiating
  {
    WalletSection.PreElder(Transfers(TransferReplicas(node, es), rateLimit), es)
  }

  /** enable: PreElder becomes Elder with the same transfers and elder state; enabling an Elder fails. */
  function Enable(w: WalletSection): (r: Result<WalletSection>)
    ensures r.Ok? <==> w.PreElder?
    ensures r.Ok? ==> r.value == WalletSection.Elder(w.transfers, w.elderState)
    ensures r.Err? ==> r.error == InvalidOperation
  {
    match w
    case PreElder(transfers, elderState) => Ok(WalletSection.Elder(transfers, elderState))
    case Elder(_, _) => Err(InvalidOperation)
  }

  /**
   * elders_changed: the replicas are told about the new elder state, no longer initiating,
   * and take the new rate limit; the variant, the elder state and the replicas' data
   * directory stay as they were.
   */
  function EldersChanged(w: WalletSection, es: ElderState, rateLimit: RateLimit): (w': WalletSection)
    ensures w'.PreElder? == w.PreElder?
    ensures w'.elderState == w.elderState
    ensures w'.transfers.replicas.rootDir == w.transfers.replicas.rootDir
    ensures w'.transfers.replicas.info == ReplicaInfoOf(es, false)
    ensures !w'.transfers.replicas.info.initiating
    ensures w'.transfers.rateLimit == rateLimit
  {
    var info := ReplicaInfoOf(es, false);
    var transfers := w.transfers.(replicas := w.transfers.replicas.(info := info), rateLimit := rateLimit);
    match w
    case PreElder(_, elderState) => WalletSection.PreElder(transfers, elderState)
    case Elder(_, elderState) => WalletSection.Elder(transfers, elderState)
  }

  /**
   * set_node_join_flag, with `routing` the outcome of asking routing to allow or refuse
   * joins: no operations on success, the routing error unchanged on failure.
   */
  function SetNodeJoinFlag(w: WalletSection, joinsAllowed: bool, routing: Result<()>): (r: Result<seq<Op>>)
    ensures r.Ok? <==> routing.Ok?
    ensures r.Ok? ==> r.value == []
    ensures r.Err? ==> r.error == routing.error
  {
    match routing
    case Ok(_) => Ok([])
    case Err(e) => Err(e)
  }

  /** process_key_section_duty: a transfer duty goes to the transfers; NoOp yields no operations. */
  function ProcessKeySectionDuty(w: WalletSection, duty: KeySectionDuty): (r: Result<seq<Op>>)
    ensures duty.NoOp? ==> r == Ok([])
    ensures duty.RunAsTransfers? ==> r == Ok([TransferDutyDone(duty.transferDuty)])
  {
    match duty
    case RunAsTransfers(d) => Ok([TransferDutyDone(d)])
    case NoOp => Ok([])
  }

  /** Enabling is one-way and not idempotent: a freshly built section enables once, and only once. */
  lemma EnableOnlyOnce(rateLimit: RateLimit, node: NodeInfo, es: ElderState)
    ensures var first := Enable(PreElder(rateLimit, node, es));
            && first.Ok?
            && first.value.Elder?
            && first.value.transfers == PreElder(rateLimit, node, es).transfers
            && Enable(first.value) == Err(InvalidOperation)
  {
  }

  /** A change of elders and enabling do not interfere: either order gives the same section. */
  lemma EldersChangedCommutesWithEnable(w: WalletSection, es: ElderState, rateLimit: RateLimit)
    requires w.PreElder?
    ensures Enable(EldersChanged(w, es, rateLimit)) == Ok(EldersChanged(Enable(w).value, es, rateLimit))
  {
  }
}
