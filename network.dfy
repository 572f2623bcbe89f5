/**
 * What the node learns from the network layer: identities, an elder's key material,
 * a snapshot of the section as seen when a handler runs, and the genesis credit with
 * its signatures. BLS signing and share combination are opaque: a share names its
 * signer and payload, and a combined signature names only its payload.
 */
module Network {

  /** Public keys, node names and section keys are opaque identities. */
  type Key = nat

  /** GENESIS_ELDER_COUNT: the fifth elder of the first section proposes genesis. */
  const GenesisElderCount: nat := 5

  /** The section chain must still be this short for the genesis branches to be taken. */
  const GenesisChainBound: nat := 5

  /** u32::MAX as u64 * 1_000_000_000: the whole supply, in nanos. */
  const GenesisAmount: nat := 4294967295 * 1000000000

  /** A BLS public key set: any threshold + 1 shares combine into a group signature. */
  datatype PublicKeySet = PublicKeySet(threshold: nat, groupKey: Key)

  /** An elder's key material (ElderState): its share index, key share, the group's key set and the section chain. */
  datatype ElderState = ElderState(
    nodeId: Key,
    keyIndex: nat,
    keyShare: Key,
    publicKeySet: PublicKeySet,
    sectionChain: seq<Key>,
    sectionKey: Key)

  /** The node's own configuration (NodeInfo): whether it is the genesis node, its reward wallet, its data directory. */
  datatype NodeInfo = NodeInfo(genesis: bool, rewardKey: Key, rootDir: string)

  /**
   * One read of the network state: our public key, whether our prefix is empty (the first
   * section), how many elders the section has, the length of the section chain, and the
   * elder state built from the genesis elder knowledge.
   */
  datatype Snapshot = Snapshot(
    publicKey: Key,
    prefixEmpty: bool,
    elderCount: nat,
    sectionChainLen: nat,
    genesisKnowledge: ElderState)

  datatype Credit = Credit(id: nat, amount: nat, recipient: Key, msg: string)

  /** What can be signed in the genesis rounds. */
  datatype Payload =
    | OfCredit(credit: Credit)
    | OfSignedCredit(signedCredit: SignedCredit)
    | OfProof(proof: CreditProof)

  /**
   * A combined group signature over a payload. Any threshold + 1 valid shares combine
   * into the same signature, so it depends on the payload alone, not on which shares
   * were combined or in what order they arrived.
   */
  datatype Signature = Aggregate(over: Payload)

  datatype SignedCredit = SignedCredit(credit: Credit, actorSignature: Signature)

  /** The credit agreement proof: the signed credit, signed again by the section's replicas. */
  datatype CreditProof = CreditProof(
    signedCredit: SignedCredit,
    debitingReplicasSig: Signature,
    debitingReplicasKeys: PublicKeySet)

  /** A bare share and a share tagged with the signer's index (SignatureShare). */
  datatype Share = Share(signer: nat, over: Payload)
  datatype SignatureShare = SignatureShare(index: nat, share: Share)

  /** sign_as_elder: this elder's share over a payload, tagged with its own key index. */
  function SignAsElder(es: ElderState, p: Payload): (s: SignatureShare)
  {
    SignatureShare(es.keyIndex, Share(es.keyIndex, p))
  }

  /** The credit the fifth genesis elder proposes: default id, the whole supply, to the section key. */
  function GenesisCredit(es: ElderState): (c: Credit)
  {
    Credit(0, GenesisAmount, es.sectionKey, "genesis")
  }
}
