/**
 The life of a channel from opening to settlement: how its status moves, what is
 frozen once it is no longer opened, and which on-chain transactions are sent.
 */
module ChannelLifecycle {
  import opened Options
  import opened ChannelState
  import opened ChannelTransitions
  import opened ChannelRuns

  /* ---- status ---- */

  /** A transaction is still running, or it finished with success. */
  ghost predicate TxGood(t: Option<TxStatus>) {
    t.Some? ==>
      || (t.value.finished.None? && t.value.result.None?)
      || (t.value.finished.Some? && t.value.result == Some(Success))
  }

  ghost predicate TxInv(c: Channel) { TxGood(c.closeTx) && TxGood(c.settleTx) }

  function Rank(s: Status): int {
    match s
    case Opened => 0
    case Closing => 1
    case Closed => 2
    case Settling => 3
    case Settled => 4
    case Unusable => -1
  }

  lemma SendsKeepTransactions(c: Channel, a: Action)
    requires TouchesLocks(a) && Step(c, a).Next?
    ensures var d := Step(c, a).channel;
      && d.closeTx == c.closeTx && d.settleTx == c.settleTx && d.updateTx == c.updateTx
      && SameParties(c, d)
  {
  }

  lemma WithdrawsKeepTransactions(c: Channel, a: Action)
    requires Step(c, a).Next?
    requires || a.AWithdraw? || a.ACoopSettle? || a.AReceiveWithdrawRequest?
             || a.AReceiveWithdrawConfirmation? || a.AReceiveWithdrawExpired?
    ensures var d := Step(c, a).channel;
      d.closeTx == c.closeTx && d.settleTx == c.settleTx && d.updateTx == c.updateTx
  {
  }

  /** The transactions of a channel only move forward. */
  ghost predicate Forward(c: Channel, d: Channel) {
    && (c.closeTx.Some? ==> d.closeTx.Some?)
    && (c.settleTx.Some? ==> d.settleTx.Some?)
    && (c.updateTx.Some? ==> d.updateTx.Some?)
    && (TxInv(c) ==> TxInv(d) && Rank(GetStatus(c)) <= Rank(GetStatus(d)))
    && SameParties(c, d)
  }

  lemma StepForward(c: Channel, a: Action)
    requires Step(c, a).Next?
    ensures Forward(c, Step(c, a).channel)
  {
    if TouchesLocks(a) {
      SendsKeepTransactions(c, a);
    } else {
      OtherActionsQuiet(c, a);
      if || a.AWithdraw? || a.ACoopSettle? || a.AReceiveWithdrawRequest?
         || a.AReceiveWithdrawConfirmation? || a.AReceiveWithdrawExpired?
      {
        WithdrawsKeepTransactions(c, a);
      }
    }
  }

  ghost predicate ForwardSteps(states: seq<Channel>) {
    forall k :: 0 <= k < |states| - 1 ==> Forward(states[k], states[k + 1])
  }

  lemma RunGoesForward(r: Run)
    requires IsRun(r)
    ensures ForwardSteps(r.states)
  {
    forall k | 0 <= k < |r.states| - 1 ensures Forward(r.states[k], r.states[k + 1]) {
      assert StepAt(r, k);
      StepForward(r.states[k], r.actions[k]);
    }
  }

  lemma {:induction false} ForwardIsTransitive(states: seq<Channel>, i: nat, j: nat)
    requires ForwardSteps(states) && i <= j < |states|
    ensures Forward(states[i], states[j])
    decreases j - i
  {
    if i < j {
      ForwardIsTransitive(states, i, j - 1);
      assert Forward(states[j - 1], states[j - 1 + 1]);
    }
  }

  lemma TransactionsForward(r: Run, i: nat, j: nat)
    requires IsRun(r) && i <= j < |r.states|
    ensures Forward(r.states[i], r.states[j])
  {
    RunGoesForward(r);
    ForwardIsTransitive(r.states, i, j);
  }

  /** In every run the status rank never drops and no state becomes unusable. */
  lemma StatusNeverDrops(r: Run, i: nat, j: nat)
    requires IsRun(r) && i <= j < |r.states| && TxInv(r.states[0])
    ensures 0 <= Rank(GetStatus(r.states[i])) <= Rank(GetStatus(r.states[j]))
  {
    TransactionsForward(r, 0, i);
    TransactionsForward(r, i, j);
  }

  /* ---- transactions that are sent once ---- */

  lemma LockStepSends(c: Channel, a: Action)
    requires Step(c, a).Next? && TouchesLocks(a)
    ensures ContractSettle !in Step(c, a).events
    ensures forall v :: v in Step(c, a).events ==> !v.ContractUpdateTransfer?
  {
  }

  lemma RequestSends(c: Channel, a: Action)
    requires Step(c, a).Next? && IsRequest(a)
    ensures ContractSettle !in Step(c, a).events
    ensures forall v :: v in Step(c, a).events ==> !v.ContractUpdateTransfer?
  {
  }

  lemma NoSettleEvent(c: Channel, a: Action)
    requires Step(c, a).Next? && (TouchesLocks(a) || IsRequest(a))
    ensures ContractSettle !in Step(c, a).events
    ensures forall v :: v in Step(c, a).events ==> !v.ContractUpdateTransfer?
  {
    if TouchesLocks(a) { LockStepSends(c, a); } else { RequestSends(c, a); }
  }

  lemma SettleStep(c: Channel, a: Action)
    requires Step(c, a).Next? && ContractSettle in Step(c, a).events
    ensures a.ABlock? && c.settleTx.None? && Step(c, a).channel.settleTx.Some? && Step(c, a).events == [ContractSettle]
    ensures c.closeTx.Some? && c.closeTx.value.finished.Some?
    ensures a.block > c.closeTx.value.finished.value + c.settleTimeout
  {
    if TouchesLocks(a) || IsRequest(a) {
      NoSettleEvent(c, a);
    } else if a.ABlock? {
      if GetStatus(c) == Opened { OnlyExpiries(c.our, c.our.withdraws, a.block); }
    }
  }

  lemma {:induction false} OnlyExpiries(e: End, ws: seq<Withdraw>, block: nat)
    ensures forall v :: v in ExpireLoop(e, ws, block).1 ==> v.SendWithdrawExpired?
    decreases |ws|
  {
    if ws != [] && block >= SenderThreshold(ws[0].expiration) {
      var next := ExpireOne(e, ws[0]);
      OnlyExpiries(next, ws[1..], block);
    }
  }

  /** The settle transaction is sent at most once in a run, after the settlement window. */
  lemma SettleSentOnce(r: Run, i: nat, j: nat)
    requires IsRun(r) && i <= j < |r.actions|
    requires ContractSettle in r.events[i] && ContractSettle in r.events[j]
    ensures i == j && r.events[i] == [ContractSettle]
    ensures r.states[i].closeTx.Some? && r.states[i].closeTx.value.finished.Some? && r.actions[i].ABlock?
    ensures r.actions[i].block > r.states[i].closeTx.value.finished.value + r.states[i].settleTimeout
  {
    assert StepAt(r, i) && StepAt(r, j);
    SettleStep(r.states[i], r.actions[i]);
    SettleStep(r.states[j], r.actions[j]);
    if i < j { TransactionsForward(r, i + 1, j); }
  }

  lemma UpdateStep(c: Channel, a: Action, v: Event)
    requires Step(c, a).Next? && v in Step(c, a).events && v.ContractUpdateTransfer?
    ensures a.AClosed? && Step(c, a).events == [v] && c.updateTx.None? && Step(c, a).channel.updateTx.Some?
    ensures PriorToClosed(GetStatus(c)) && Step(c, a).channel.closeTx.Some?
    ensures c.partner.book.proof == Some(v.bp)
  {
    if TouchesLocks(a) || IsRequest(a) {
      NoSettleEvent(c, a);
    } else if a.ABlock? && GetStatus(c) == Opened {
      OnlyExpiries(c.our, c.our.withdraws, a.block);
    }
  }

  /** The update-transfer transaction is sent at most once in a run. */
  lemma UpdateSentOnce(r: Run, i: nat, j: nat, v: Event, w: Event)
    requires IsRun(r) && i <= j < |r.actions|
    requires v in r.events[i] && w in r.events[j] && v.ContractUpdateTransfer? && w.ContractUpdateTransfer?
    ensures i == j && v == w && r.events[i] == [v]
  {
    assert StepAt(r, i) && StepAt(r, j);
    UpdateStep(r.states[i], r.actions[i], v);
    UpdateStep(r.states[j], r.actions[j], w);
    if i < j { TransactionsForward(r, i + 1, j); }
  }

  /* ---- what is frozen ---- */

  /** Neither end's balance proof nor pending list differs. */
  ghost predicate SameProofs(c: Channel, d: Channel) {
    && d.our.book.proof == c.our.book.proof && d.our.book.pending == c.our.book.pending
    && d.partner.book.proof == c.partner.book.proof && d.partner.book.pending == c.partner.book.pending
  }

  lemma LocksNeedOpened(c: Channel, a: Action)
    requires Step(c, a).Next? && GetStatus(c) != Opened && TouchesLocks(a)
    ensures SameProofs(c, Step(c, a).channel)
  {
  }

  lemma NotOpenedFreezes(c: Channel, a: Action)
    requires Step(c, a).Next? && GetStatus(c) != Opened
    ensures SameProofs(c, Step(c, a).channel)
  {
    if TouchesLocks(a) { LocksNeedOpened(c, a); } else { OtherActionsQuiet(c, a); }
  }

  lemma NotOpenedStays(c: Channel, d: Channel)
    requires Forward(c, d) && GetStatus(c) != Opened
    ensures GetStatus(d) != Opened
  {
  }

  /** Once a channel has left the opened state, no balance proof or pending list changes again. */
  lemma {:induction false} FrozenAfterOpened(r: Run, i: nat, j: nat)
    requires IsRun(r) && i <= j < |r.states| && GetStatus(r.states[i]) != Opened
    ensures GetStatus(r.states[j]) != Opened
    ensures SameProofs(r.states[i], r.states[j])
    decreases j - i
  {
    if i < j {
      FrozenAfterOpened(r, i, j - 1);
      var c, a := r.states[j - 1], r.actions[j - 1];
      assert StepAt(r, j - 1);
      NotOpenedFreezes(c, a);
      StepForward(c, a);
      NotOpenedStays(c, r.states[j]);
    }
  }

  /* ---- the balance proof that goes on-chain ---- */

  /** The partner's balance proof that a step accepts. */
  ghost function AcceptedProof(c: Channel, a: Action): Option<BalanceProof> {
    match a
    case AReceiveLockedTransfer(bp, l, matches) =>
      if matches && CheckLockedTransfer(c, c.partner, c.our, bp, l).Some? then Some(bp) else None
    case AReceiveUnlock(bp, secret) =>
      if CheckUnlock(c, c.partner, bp, Sha256(secret)).Some? then Some(bp) else None
    case AReceiveLockExpired(bp, h, block) =>
      if CheckLockExpired(c, c.partner, c.our, bp, h, block).Some? then Some(bp) else None
    case _ => None
  }

  ghost predicate ProofNonceInv(c: Channel) {
    c.partner.book.proof.Some? ==>
      && c.partner.book.proof.value.nonce <= c.partner.nonce
      && c.partner.book.proof.value.signer == Some(c.partner.address)
  }

  /** An accepted proof is stored, is newer than every earlier one and needs an opened channel. */
  ghost predicate Link(c: Channel, accepted: Option<BalanceProof>, d: Channel) {
    ProofNonceInv(c) ==>
      && ProofNonceInv(d)
      && match accepted
         case Some(bp) => GetStatus(c) == Opened && d.partner.book.proof == Some(bp) && bp.nonce > c.partner.nonce
         case None => d.partner.book.proof == c.partner.book.proof
  }

  lemma ReceiveStep(c: Channel, a: Action)
    requires Step(c, a).Next? && (a.AReceiveLockedTransfer? || a.AReceiveUnlock? || a.AReceiveLockExpired?)
    ensures Link(c, AcceptedProof(c, a), Step(c, a).channel)
  {
  }

  lemma AcceptStep(c: Channel, a: Action)
    requires Step(c, a).Next?
    ensures Link(c, AcceptedProof(c, a), Step(c, a).channel)
  {
    if a.AReceiveLockedTransfer? || a.AReceiveUnlock? || a.AReceiveLockExpired? {
      ReceiveStep(c, a);
    } else if TouchesLocks(a) {
      SendsKeepTransactions(c, a);
    } else {
      OtherActionsQuiet(c, a);
    }
  }

  ghost predicate Linked(states: seq<Channel>, accepted: seq<Option<BalanceProof>>) {
    && |states| == |accepted| + 1
    && forall k :: 0 <= k < |accepted| ==> Link(states[k], accepted[k], states[k + 1])
  }

  /** Nothing accepted before state `n` is newer than the proof stored in it, which is one of those. */
  ghost predicate StoredIsNewest(states: seq<Channel>, accepted: seq<Option<BalanceProof>>, n: nat)
    requires n <= |accepted| && n < |states|
  {
    var stored := states[n].partner.book.proof;
    && ProofNonceInv(states[n])
    && (forall j :: 0 <= j < n && accepted[j].Some? ==> stored.Some? && accepted[j].value.nonce <= stored.value.nonce)
    && (stored != states[0].partner.book.proof ==> exists j :: 0 <= j < n && accepted[j] == stored)
  }

  lemma {:induction false} StoredProofIsNewest(states: seq<Channel>, accepted: seq<Option<BalanceProof>>, n: nat)
    requires Linked(states, accepted) && n < |states| && ProofNonceInv(states[0])
    ensures StoredIsNewest(states, accepted, n)
  {
    if n > 0 {
      StoredProofIsNewest(states, accepted, n - 1);
      assert Link(states[n - 1], accepted[n - 1], states[n - 1 + 1]);
    }
  }

  /** The proofs accepted in a run, step by step. */
  ghost predicate AcceptedIn(r: Run, accepted: seq<Option<BalanceProof>>) {
    && |accepted| == |r.actions| && |r.states| == |r.actions| + 1
    && forall k :: 0 <= k < |accepted| ==> accepted[k] == AcceptedProof(r.states[k], r.actions[k])
  }

  lemma RunIsLinked(r: Run, accepted: seq<Option<BalanceProof>>)
    requires IsRun(r) && AcceptedIn(r, accepted)
    ensures Linked(r.states, accepted)
  {
    forall k | 0 <= k < |accepted| ensures Link(r.states[k], accepted[k], r.states[k + 1]) {
      assert StepAt(r, k);
      AcceptStep(r.states[k], r.actions[k]);
    }
  }

  lemma RequestNeverCloses(c: Channel, a: Action)
    requires Step(c, a).Next? && IsRequest(a) && !a.AClose?
    ensures forall v :: v in Step(c, a).events ==> !v.ContractClose?
  {
  }

  lemma NoCloseEvent(c: Channel, a: Action)
    requires Step(c, a).Next? && !a.AClose?
    ensures forall v :: v in Step(c, a).events ==> !v.ContractClose?
  {
    if IsRequest(a) {
      RequestNeverCloses(c, a);
    } else if a.ABlock? && GetStatus(c) == Opened {
      OnlyExpiries(c.our, c.our.withdraws, a.block);
    }
  }

  lemma CloseStep(c: Channel, a: Action, v: Event)
    requires Step(c, a).Next? && v in Step(c, a).events && v.ContractClose?
    ensures a.AClose? && v.proof == c.partner.book.proof && Step(c, a).channel.closeTx.Some?
  {
    if !a.AClose? { NoCloseEvent(c, a); }
  }

  /** The close or update-transfer event `v` carries the balance proof `carried`. */
  ghost predicate Carries(v: Event, carried: Option<BalanceProof>) {
    v == ContractClose(carried) || (v.ContractUpdateTransfer? && carried == Some(v.bp))
  }

  lemma CarriedIsStored(c: Channel, a: Action, v: Event, carried: Option<BalanceProof>)
    requires Step(c, a).Next? && v in Step(c, a).events && Carries(v, carried)
    ensures carried == c.partner.book.proof
    ensures Step(c, a).channel.closeTx.Some? && AcceptedProof(c, a).None?
  {
    if v.ContractClose? { CloseStep(c, a, v); } else { UpdateStep(c, a, v); }
  }

  lemma AcceptedBeforeClosing(states: seq<Channel>, accepted: seq<Option<BalanceProof>>, i: nat, j: nat)
    requires Linked(states, accepted) && ForwardSteps(states) && ProofNonceInv(states[0])
    requires i < |accepted| && j < |accepted| && states[i + 1].closeTx.Some? && accepted[i].None? && accepted[j].Some?
    ensures j < i
  {
    StoredProofIsNewest(states, accepted, j);
    assert Link(states[j], accepted[j], states[j + 1]);
    if j > i { ForwardIsTransitive(states, i + 1, j); }
  }

  /**
   The balance proof carried by a close or update-transfer transaction is the
   newest one the partner ever got accepted, before or after it is sent.
   */
  lemma OnchainProofIsNewest(r: Run, accepted: seq<Option<BalanceProof>>, i: nat, v: Event,
                             carried: Option<BalanceProof>)
    requires IsRun(r) && AcceptedIn(r, accepted) && ProofNonceInv(r.states[0])
    requires i < |r.actions| && v in r.events[i] && Carries(v, carried)
    ensures forall j :: 0 <= j < |accepted| && accepted[j].Some? ==>
      j < i && carried.Some? && accepted[j].value.nonce <= carried.value.nonce
    ensures carried.Some? ==> carried.value.signer == Some(r.states[i].partner.address)
    ensures carried != r.states[0].partner.book.proof ==> exists j :: 0 <= j < i && accepted[j] == carried
  {
    assert StepAt(r, i);
    CarriedIsStored(r.states[i], r.actions[i], v, carried);
    RunIsLinked(r, accepted);
    RunGoesForward(r);
    StoredProofIsNewest(r.states, accepted, i);
    forall j | 0 <= j < |accepted| && accepted[j].Some? ensures j < i {
      AcceptedBeforeClosing(r.states, accepted, i, j);
    }
  }

  /* ---- removal after settlement ---- */

  /** The step settles the channel or unlocks what the end at `address` had pending. */
  ghost predicate ChangesRoot(a: Action, address: Address) { a.ASettled? || a == ABatchUnlock(address) }

  ghost predicate SameRoots(c: Channel, d: Channel) {
    d.our.onchainLocksroot == c.our.onchainLocksroot && d.partner.onchainLocksroot == c.partner.onchainLocksroot
  }

  lemma LockActionsKeepRoots(c: Channel, a: Action)
    requires Step(c, a).Next? && TouchesLocks(a)
    ensures SameRoots(c, Step(c, a).channel)
  {
  }

  lemma RequestsKeepRoots(c: Channel, a: Action)
    requires Step(c, a).Next? && IsRequest(a)
    ensures SameRoots(c, Step(c, a).channel)
  {
  }

  lemma BlocksKeepRoots(c: Channel, a: Action)
    requires Step(c, a).Next? && a.ABlock?
    ensures SameRoots(c, Step(c, a).channel)
  {
    ExpireLoopFrame(c.our, c.our.withdraws, a.block);
  }

  lemma ChainEventsKeepRoots(c: Channel, a: Action)
    requires Step(c, a).Next? && (a.AClosed? || a.AUpdatedTransfer? || a.ADeposit? || a.AChainWithdraw?)
    ensures SameRoots(c, Step(c, a).channel)
  {
  }

  lemma RootStep(c: Channel, a: Action)
    requires Step(c, a).Next?
    ensures !ChangesRoot(a, c.our.address) ==> Step(c, a).channel.our.onchainLocksroot == c.our.onchainLocksroot
    ensures !ChangesRoot(a, c.partner.address) ==>
      Step(c, a).channel.partner.onchainLocksroot == c.partner.onchainLocksroot
  {
    if TouchesLocks(a) {
      LockActionsKeepRoots(c, a);
    } else if IsRequest(a) {
      RequestsKeepRoots(c, a);
    } else if a.ABlock? {
      BlocksKeepRoots(c, a);
    } else if !a.ASettled? && !a.ABatchUnlock? {
      ChainEventsKeepRoots(c, a);
    }
  }

  lemma {:induction false} RootsKept(r: Run, i: nat, j: nat)
    requires IsRun(r) && i <= j < |r.states|
    ensures var c, d := r.states[i], r.states[j];
      && d.our.address == c.our.address && d.partner.address == c.partner.address
      && ((forall k :: i <= k < j ==> !ChangesRoot(r.actions[k], c.our.address)) ==>
            d.our.onchainLocksroot == c.our.onchainLocksroot)
      && ((forall k :: i <= k < j ==> !ChangesRoot(r.actions[k], c.partner.address)) ==>
            d.partner.onchainLocksroot == c.partner.onchainLocksroot)
    decreases j - i
  {
    if i < j {
      RootsKept(r, i, j - 1);
      assert StepAt(r, j - 1);
      RootStep(r.states[j - 1], r.actions[j - 1]);
      StepForward(r.states[j - 1], r.actions[j - 1]);
    }
  }

  /**
   A batch unlock removes the channel only if, for each end whose on-chain
   locksroot was not empty at some point of the run, that end's locks were
   unlocked since, at the latest by this very batch unlock (or a settlement
   replaced the locksroot).
   */
  lemma RemovedOnlyWhenUnlocked(r: Run, i: nat, sender: Address)
    requires IsRun(r) && i < |r.states| && Step(r.states[|r.actions|], ABatchUnlock(sender)).Removed?
    ensures GetStatus(r.states[|r.actions|]) == Settled
    ensures var c := r.states[i];
      && (c.our.onchainLocksroot != NoLocksRoot() ==>
            || sender == c.our.address
            || exists k :: i <= k < |r.actions| && ChangesRoot(r.actions[k], c.our.address))
      && (c.partner.onchainLocksroot != NoLocksRoot() ==>
            || sender == c.partner.address
            || exists k :: i <= k < |r.actions| && ChangesRoot(r.actions[k], c.partner.address))
  {
    RootsKept(r, i, |r.actions|);
  }

  /** Removal by a batch unlock happens exactly when no locksroot is left once the sender's is cleared. */
  lemma BatchUnlockRemovesIff(c: Channel, sender: Address)
    requires c.our.address != c.partner.address
    ensures Step(c, ABatchUnlock(sender)).Removed? <==>
      && GetStatus(c) == Settled
      && (c.our.onchainLocksroot == NoLocksRoot() || sender == c.our.address)
      && (c.partner.onchainLocksroot == NoLocksRoot() || sender == c.partner.address)
  {
  }
}
