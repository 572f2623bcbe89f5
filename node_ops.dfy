/**
 * The duties a node is handed and the operations it hands back. Duties for the
 * adult, elder and transfer subsystems are opaque values; what those subsystems
 * return for one is an operation tag naming the duty.
 */
module NodeOps {
  import opened Wrappers
  import opened Network

  datatype ElderDuty = ElderDuty(id: nat)
  datatype AdultDuty = AdultDuty(id: nat)
  datatype TransferDuty = TransferDuty(id: nat)

  /** The wallet history a new elder's duties are seeded with (WalletInfo). */
  datatype WalletInfo = WalletInfo(replicas: PublicKeySet, credits: seq<CreditProof>)

  /** The genesis event handed to the new elder's ledger (TransferPropagated). */
  datatype TransferPropagated = TransferPropagated(creditProof: CreditProof)

  /** The lifecycle events of a node (NodeDuty) that this core handles. */
  datatype NodeDuty =
    | RegisterWallet(wallet: Key)
    | AssumeAdultDuties
    | AssumeElderDuties(knowledge: ElderState)
    | ReceiveGenesisProposal(credit: Credit, sig: SignatureShare)
    | ReceiveGenesisAccumulation(signedCredit: SignedCredit, sig: SignatureShare)
    | InitiateElderChange(knowledge: ElderState)
    | FinishElderChange(previousKey: Key, newKey: Key)
    | InitSectionWallet(walletInfo: WalletInfo)
    | NodeNoOp
    | StorageFull

  /** What process() is handed (NetworkDuty). */
  datatype NetworkDuty =
    | RunAsAdult(adultDuty: AdultDuty)
    | RunAsElder(elderDuty: ElderDuty)
    | RunAsNode(nodeDuty: NodeDuty)
    | NoOp

  /** The operations a handler returns, in order (NetworkDuties). */
  datatype Op =
    | RegisterWalletDuty(wallet: Key)                 // NodeDuty::RegisterWallet, fed back to the node
    | SendRegisterWallet(wallet: Key, nodeId: Key)    // the RegisterWallet command sent to the wallet's section
    | SendStorageFull(nodeId: Key)
    | ProposeGenesis(credit: Credit, sig: SignatureShare, dst: Key)
    | AccumulateGenesis(signedCredit: SignedCredit, sig: SignatureShare, dst: Key)
    | GetSectionWalletHistory(dst: Key)
    | Initiated(genesis: Option<TransferPropagated>)  // what the new elder duties return on initiate
    | ElderDutyDone(elderDuty: ElderDuty)             // what the elder duties return for one duty
    | AdultDutyDone(adultDuty: AdultDuty)             // what the adult duties return for one duty
    | TransferDutyDone(transferDuty: TransferDuty)    // what the transfers return for one duty
    | ElderChangeInitiated(knowledge: ElderState)
    | ElderChangeFinished(previousKey: Key, newKey: Key)
    | AddNewNode(nodeId: Key)
    | SetNodeWallet(nodeId: Key, wallet: Key)
}
