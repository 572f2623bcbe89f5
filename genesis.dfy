/**
 * The two genesis rounds. Round 1 (GenesisProposal) collects shares over the proposed
 * credit; round 2 (GenesisAccumulation) collects shares over the signed credit. Both
 * keep the shares in a map keyed by share index and, once more shares than the key
 * set's threshold are held, combine them into the round's agreement. The share
 * combination itself (BLS) is opaque: the agreement is the group signature over the
 * round's payload, the same whichever shares produced it.
 */
module GenesisRounds {
  import opened Wrappers
  import opened Network
  import opened NodeOps

  datatype GenesisProposal = GenesisProposal(
    elderState: ElderState,
    proposal: Credit,
    signatures: map<nat, Share>,
    pendingAgreement: Option<SignedCredit>,
    queuedOps: seq<ElderDuty>)

  datatype GenesisAccumulation = GenesisAccumulation(
    elderState: ElderState,
    agreedProposal: SignedCredit,
    signatures: map<nat, Share>,
    pendingAgreement: Option<CreditProof>,
    queuedOps: seq<ElderDuty>)

  /** The share map of a round together with its agreement, once there is one. */
  datatype Tally<P> = Tally(signatures: map<nat, Share>, pending: Option<P>)

  /**
   * Records one share: a share whose index is already present overwrites it and is not
   * counted again; the agreement appears once more than `threshold` indices are held
   * and is never replaced or cleared afterwards.
   */
  function AddShare<P>(t: Tally<P>, threshold: nat, sig: SignatureShare, agreement: P): (r: Tally<P>)
    ensures r.signatures.Keys == t.signatures.Keys + {sig.index}
    ensures r.signatures[sig.index] == sig.share
    ensures forall i :: i in t.signatures && i != sig.index ==> r.signatures[i] == t.signatures[i]
    ensures |r.signatures| == if sig.index in t.signatures then |t.signatures| else |t.signatures| + 1
    ensures t.pending.Some? ==> r.pending == t.pending
    ensures t.pending.None? && |r.signatures| > threshold ==> r.pending == Some(agreement)
    ensures t.pending.None? && |r.signatures| <= threshold ==> r.pending.None?
  {
    var signatures := t.signatures[sig.index := sig.share];
    var pending :=
      if t.pending.Some? then t.pending
      else if |signatures| > threshold then Some(agreement)
      else None;
    Tally(signatures, pending)
  }

  /** The shares `sigs` recorded one after the other, as they arrive. */
  function AddShares<P>(t: Tally<P>, threshold: nat, sigs: seq<SignatureShare>, agreement: P): Tally<P>
    decreases |sigs|
  {
    if sigs == [] then t else AddShares(AddShare(t, threshold, sigs[0], agreement), threshold, sigs[1..], agreement)
  }

  predicate DistinctIndices(sigs: seq<SignatureShare>)
  {
    forall i, j :: 0 <= i < j < |sigs| ==> sigs[i].index != sigs[j].index
  }

  /** Recording shares never loses one, and the agreement is present exactly when it was, or when some share was added and the final count exceeds the threshold. */
  lemma {:induction false} AgreementOnceThresholdExceeded<P>(t: Tally<P>, threshold: nat, sigs: seq<SignatureShare>, agreement: P)
    ensures t.signatures.Keys <= AddShares(t, threshold, sigs, agreement).signatures.Keys
    ensures |t.signatures| <= |AddShares(t, threshold, sigs, agreement).signatures|
    ensures t.pending.Some? ==> AddShares(t, threshold, sigs, agreement).pending == t.pending
    ensures t.pending.None? && AddShares(t, threshold, sigs, agreement).pending.Some? ==>
              AddShares(t, threshold, sigs, agreement).pending == Some(agreement)
    ensures AddShares(t, threshold, sigs, agreement).pending.Some? <==>
              t.pending.Some? || (sigs != [] && |AddShares(t, threshold, sigs, agreement).signatures| > threshold)
    decreases |sigs|
  {
    if sigs != [] {
      var t1 := AddShare(t, threshold, sigs[0], agreement);
      AgreementOnceThresholdExceeded(t1, threshold, sigs[1..], agreement);
    }
  }

  /** Shares from distinct signers not yet recorded each add exactly one entry. */
  lemma {:induction false} DistinctSharesAllCount<P>(t: Tally<P>, threshold: nat, sigs: seq<SignatureShare>, agreement: P)
    requires DistinctIndices(sigs)
    requires forall i :: 0 <= i < |sigs| ==> sigs[i].index !in t.signatures
    ensures |AddShares(t, threshold, sigs, agreement).signatures| == |t.signatures| + |sigs|
    decreases |sigs|
  {
    if sigs != [] {
      var t1 := AddShare(t, threshold, sigs[0], agreement);
      forall i | 0 <= i < |sigs[1..]| ensures sigs[1..][i].index !in t1.signatures {
        assert sigs[1..][i] == sigs[i + 1];
      }
      DistinctSharesAllCount(t1, threshold, sigs[1..], agreement);
    }
  }

  /**
   * Threshold exactness: starting from no shares, shares from distinct signers produce the
   * agreement exactly when there are more of them than the threshold (with threshold T,
   * T shares leave it absent and T + 1 make it present), and it is the round's agreement.
   */
  lemma ThresholdExactness<P>(threshold: nat, sigs: seq<SignatureShare>, agreement: P)
    requires DistinctIndices(sigs)
    ensures |AddShares(Tally(map[], None), threshold, sigs, agreement).signatures| == |sigs|
    ensures AddShares(Tally(map[], None), threshold, sigs, agreement).pending ==
              if |sigs| > threshold then Some(agreement) else None
  {
    var t: Tally<P> := Tally(map[], None);
    DistinctSharesAllCount(t, threshold, sigs, agreement);
    AgreementOnceThresholdExceeded(t, threshold, sigs, agreement);
  }

  /** The signer indices of the shares `sigs`. */
  function IndicesOf(sigs: seq<SignatureShare>): set<nat>
  {
    set s | s in sigs :: s.index
  }

  /** The signer indices of a non-empty run of shares: the first share's and the rest's. */
  lemma IndicesOfCons(sigs: seq<SignatureShare>)
    requires sigs != []
    ensures IndicesOf(sigs) == {sigs[0].index} + IndicesOf(sigs[1..])
  {
    assert sigs == [sigs[0]] + sigs[1..];
  }

  /** Splitting off the first of a run of shares from distinct signers. */
  lemma DistinctTail(sigs: seq<SignatureShare>)
    requires DistinctIndices(sigs) && sigs != []
    ensures DistinctIndices(sigs[1..])
    ensures sigs[0].index !in IndicesOf(sigs[1..])
  {
    var rest := sigs[1..];
    forall i, j | 0 <= i < j < |rest| ensures rest[i].index != rest[j].index {
      assert rest[i] == sigs[i + 1] && rest[j] == sigs[j + 1];
    }
    forall s | s in rest ensures s.index != sigs[0].index {
      var j :| 0 <= j < |rest| && rest[j] == s;
      assert rest[j] == sigs[j + 1];
    }
  }

  /** Recording shares adds exactly their indices, and entries under no other index change. */
  lemma {:induction false} SharesKeysAndFrame<P>(t: Tally<P>, threshold: nat, sigs: seq<SignatureShare>, agreement: P)
    ensures AddShares(t, threshold, sigs, agreement).signatures.Keys == t.signatures.Keys + IndicesOf(sigs)
    ensures forall i :: i in t.signatures && i !in IndicesOf(sigs) ==>
              AddShares(t, threshold, sigs, agreement).signatures[i] == t.signatures[i]
    decreases |sigs|
  {
    if sigs != [] {
      var t1 := AddShare(t, threshold, sigs[0], agreement);
      assert AddShares(t, threshold, sigs, agreement) == AddShares(t1, threshold, sigs[1..], agreement);
      IndicesOfCons(sigs);
      SharesKeysAndFrame(t1, threshold, sigs[1..], agreement);
    }
  }

  /** Shares from distinct signers are each recorded under their own index. */
  lemma {:induction false} DistinctSharesRecorded<P>(t: Tally<P>, threshold: nat, sigs: seq<SignatureShare>, agreement: P)
    requires DistinctIndices(sigs)
    ensures forall s :: s in sigs ==>
              && s.index in AddShares(t, threshold, sigs, agreement).signatures
              && AddShares(t, threshold, sigs, agreement).signatures[s.index] == s.share
    decreases |sigs|
  {
    SharesKeysAndFrame(t, threshold, sigs, agreement);
    if sigs != [] {
      var t1 := AddShare(t, threshold, sigs[0], agreement);
      assert AddShares(t, threshold, sigs, agreement) == AddShares(t1, threshold, sigs[1..], agreement);
      DistinctTail(sigs);
      SharesKeysAndFrame(t1, threshold, sigs[1..], agreement);
      DistinctSharesRecorded(t1, threshold, sigs[1..], agreement);
      var m := AddShares(t1, threshold, sigs[1..], agreement).signatures;
      forall s | s in sigs ensures m[s.index] == s.share {
        if s != sigs[0] {
          var j :| 0 <= j < |sigs| && sigs[j] == s;
          assert sigs[1..][j - 1] == s;
        }
      }
    }
  }

  /** Two sequences holding the same shares hold the same signer indices. */
  lemma SameSharesSameIndices(sigs: seq<SignatureShare>, sigs': seq<SignatureShare>)
    requires multiset(sigs) == multiset(sigs')
    ensures |sigs| == |sigs'|
    ensures forall s :: s in sigs <==> s in sigs'
    ensures IndicesOf(sigs) == IndicesOf(sigs')
  {
    assert |sigs| == |multiset(sigs)| == |multiset(sigs')| == |sigs'|;
    forall s ensures s in sigs <==> s in sigs' {
      assert s in sigs <==> s in multiset(sigs);
      assert s in sigs' <==> s in multiset(sigs');
    }
  }

  /** Two arrival orders of the same shares from distinct signers build the same share map. */
  lemma SameShareMap<P>(threshold: nat, sigs: seq<SignatureShare>, sigs': seq<SignatureShare>, agreement: P)
    requires DistinctIndices(sigs) && DistinctIndices(sigs')
    requires multiset(sigs) == multiset(sigs')
    ensures AddShares(Tally(map[], None), threshold, sigs, agreement).signatures ==
            AddShares(Tally(map[], None), threshold, sigs', agreement).signatures
  {
    var t: Tally<P> := Tally(map[], None);
    SameSharesSameIndices(sigs, sigs');
    SharesKeysAndFrame(t, threshold, sigs, agreement);
    SharesKeysAndFrame(t, threshold, sigs', agreement);
    DistinctSharesRecorded(t, threshold, sigs, agreement);
    DistinctSharesRecorded(t, threshold, sigs', agreement);
    var m := AddShares(t, threshold, sigs, agreement).signatures;
    var m' := AddShares(t, threshold, sigs', agreement).signatures;
    assert m.Keys == m'.Keys;
    forall i | i in m ensures m[i] == m'[i] {
      var s :| s in sigs && s.index == i;
    }
  }

  /**
   * Order independence: two arrival orders of the same shares from distinct signers leave
   * the round with the same share map and the same agreement.
   */
  lemma AgreementIndependentOfOrder<P>(threshold: nat, sigs: seq<SignatureShare>, sigs': seq<SignatureShare>, agreement: P)
    requires DistinctIndices(sigs) && DistinctIndices(sigs')
    requires multiset(sigs) == multiset(sigs')
    ensures AddShares(Tally(map[], None), threshold, sigs, agreement) ==
            AddShares(Tally(map[], None), threshold, sigs', agreement)
  {
    SameSharesSameIndices(sigs, sigs');
    ThresholdExactness(threshold, sigs, agreement);
    ThresholdExactness(threshold, sigs', agreement);
    SameShareMap(threshold, sigs, sigs', agreement);
  }

  /** Round 1 agreement: the proposed credit under the section's group signature. */
  function SignCredit(proposal: Credit): (sc: SignedCredit)
    ensures sc.credit == proposal && sc.actorSignature.over == OfCredit(proposal)
  {
    SignedCredit(proposal, Aggregate(OfCredit(proposal)))
  }

  /** Round 2 agreement: the agreed signed credit, signed again by the section's replicas. */
  function ProveCredit(agreed: SignedCredit, keys: PublicKeySet): (proof: CreditProof)
    ensures proof.signedCredit == agreed && proof.debitingReplicasKeys == keys
    ensures proof.debitingReplicasSig.over == OfSignedCredit(agreed)
  {
    CreditProof(agreed, Aggregate(OfSignedCredit(agreed)), keys)
  }

  /** GenesisProposal::add: records the share; the signed credit appears once the threshold is exceeded. */
  function AddProposalShare(p: GenesisProposal, sig: SignatureShare): (r: GenesisProposal)
    ensures r.elderState == p.elderState && r.proposal == p.proposal && r.queuedOps == p.queuedOps
    ensures r.signatures == p.signatures[sig.index := sig.share]
    ensures p.pendingAgreement.Some? ==> r.pendingAgreement == p.pendingAgreement
    ensures p.pendingAgreement.None? ==>
              (r.pendingAgreement.Some? <==> |r.signatures| > p.elderState.publicKeySet.threshold)
    ensures p.pendingAgreement.None? && r.pendingAgreement.Some? ==>
              r.pendingAgreement.value == SignedCredit(p.proposal, Aggregate(OfCredit(p.proposal)))
  {
    var t := AddShare(Tally(p.signatures, p.pendingAgreement), p.elderState.publicKeySet.threshold, sig, SignCredit(p.proposal));
    p.(signatures := t.signatures, pendingAgreement := t.pending)
  }

  /** GenesisAccumulation::add: records the share; the credit proof appears once the threshold is exceeded. */
  function AddAccumulationShare(a: GenesisAccumulation, sig: SignatureShare): (r: GenesisAccumulation)
    ensures r.elderState == a.elderState && r.agreedProposal == a.agreedProposal && r.queuedOps == a.queuedOps
    ensures r.signatures == a.signatures[sig.index := sig.share]
    ensures a.pendingAgreement.Some? ==> r.pendingAgreement == a.pendingAgreement
    ensures a.pendingAgreement.None? ==>
              (r.pendingAgreement.Some? <==> |r.signatures| > a.elderState.publicKeySet.threshold)
    ensures a.pendingAgreement.None? && r.pendingAgreement.Some? ==>
              r.pendingAgreement.value.signedCredit == a.agreedProposal &&
              r.pendingAgreement.value.debitingReplicasSig == Aggregate(OfSignedCredit(a.agreedProposal)) &&
              r.pendingAgreement.value.debitingReplicasKeys == a.elderState.publicKeySet
  {
    var es := a.elderState;
    var t := AddShare(Tally(a.signatures, a.pendingAgreement), es.publicKeySet.threshold, sig,
                      ProveCredit(a.agreedProposal, es.publicKeySet));
    a.(signatures := t.signatures, pendingAgreement := t.pending)
  }
}
