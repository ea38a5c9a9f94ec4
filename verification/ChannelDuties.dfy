/**
 What a node has to send as its channel is closed and settled: each on-chain
 transaction of a run, with the exact steps that send it.
 */
module ChannelDuties {
  import opened Options
  import opened ChannelState
  import opened ChannelTransitions
  import opened ChannelRuns
  import opened ChannelLifecycle

  /** The channel is opened, or this node has asked for its close and the chain has not reported it yet. */
  predicate IsUnclosed(c: Channel) { GetStatus(c) == Opened || GetStatus(c) == Closing }

  /* ---- update transfer ---- */

  /** The contract reports that the channel was closed, by somebody other than this node. */
  ghost predicate ClosedByOther(c: Channel, a: Action) {
    a.AClosed? && a.channelId == c.id.channelId && a.from != c.our.address
  }

  /** The contract reports an update of the channel. */
  ghost predicate SeesUpdate(c: Channel, a: Action) { a.AUpdatedTransfer? && a.channelId == c.id.channelId }

  /** From a channel without update transaction, only a close or an update that is seen makes one. */
  lemma UpdateTxStep(c: Channel, a: Action)
    requires Step(c, a).Next? && c.updateTx.None? && Step(c, a).channel.updateTx.Some?
    ensures SeesUpdate(c, a) || (a.AClosed? && IsUnclosed(c) && Step(c, a).channel.closeTx.Some?)
  {
    if TouchesLocks(a) {
      SendsKeepTransactions(c, a);
    } else if || a.AWithdraw? || a.ACoopSettle? || a.AReceiveWithdrawRequest?
              || a.AReceiveWithdrawConfirmation? || a.AReceiveWithdrawExpired?
    {
      WithdrawsKeepTransactions(c, a);
    }
  }

  /** A close that is seen while the channel is opened or closing ends that. */
  lemma ClosedEnds(c: Channel, a: Action)
    requires Step(c, a).Next? && a.AClosed? && a.channelId == c.id.channelId && TxInv(c) && IsUnclosed(c)
    ensures Rank(GetStatus(Step(c, a).channel)) == 2
  {
  }

  lemma ForeignClose(c: Channel, a: Action)
    requires a.AClosed? && a.channelId != c.id.channelId
    ensures Step(c, a) == Next(c, [])
  {
  }

  /** While a channel is opened or closing, it has an update transaction only if an update was seen. */
  lemma {:induction false} NoUpdateYet(r: Run, i: nat)
    requires IsRun(r) && i < |r.states| && TxInv(r.states[0]) && r.states[0].updateTx.None?
    requires IsUnclosed(r.states[i])
    requires forall k :: 0 <= k < i ==> !SeesUpdate(r.states[k], r.actions[k])
    ensures r.states[i].updateTx.None?
    decreases i
  {
    if i > 0 {
      var c, a := r.states[i - 1], r.actions[i - 1];
      assert StepAt(r, i - 1);
      StatusNeverDrops(r, i - 1, i);
      NoUpdateYet(r, i - 1);
      TransactionsForward(r, 0, i - 1);
      if r.states[i].updateTx.Some? {
        UpdateTxStep(c, a);
        if a.channelId == c.id.channelId { ClosedEnds(c, a); } else { ForeignClose(c, a); }
      }
    }
  }

  lemma {:induction false} SeenUpdateStays(r: Run, k: nat, i: nat)
    requires IsRun(r) && k < i < |r.states| && SeesUpdate(r.states[k], r.actions[k])
    ensures r.states[i].updateTx.Some?
  {
    assert StepAt(r, k);
    TransactionsForward(r, k + 1, i);
  }

  /** The identity of the channel does not change. */
  lemma SameChannelId(r: Run, i: nat)
    requires IsRun(r) && i < |r.states|
    ensures r.states[i].id == r.states[0].id && r.states[i].our.address == r.states[0].our.address
    ensures r.states[i].settleTimeout == r.states[0].settleTimeout
  {
    TransactionsForward(r, 0, i);
  }

  /** What makes it necessary to answer a close, in terms of what has happened in the run. */
  ghost predicate UpdateIsDue(r: Run, accepted: seq<Option<BalanceProof>>, i: nat)
    requires IsRun(r) && AcceptedIn(r, accepted) && i < |r.actions|
  {
    && ClosedByOther(r.states[i], r.actions[i]) && IsUnclosed(r.states[i])
    && (exists j :: 0 <= j < i && accepted[j].Some?)
    && (forall k :: 0 <= k < i ==> !SeesUpdate(r.states[k], r.actions[k]))
  }

  /** The proof was accepted before step `i` and no proof accepted in the run is newer. */
  ghost predicate IsNewest(accepted: seq<Option<BalanceProof>>, i: nat, bp: BalanceProof)
    requires i <= |accepted|
  {
    && (exists j :: 0 <= j < i && accepted[j] == Some(bp))
    && (forall j :: 0 <= j < |accepted| && accepted[j].Some? ==> accepted[j].value.nonce <= bp.nonce)
  }

  ghost predicate NewRun(r: Run) {
    IsRun(r) && TxInv(r.states[0]) && r.states[0].updateTx.None? && r.states[0].partner.book.proof.None?
  }

  /** A proof is stored exactly when one has been accepted. */
  lemma StoredIffAccepted(r: Run, accepted: seq<Option<BalanceProof>>, i: nat)
    requires NewRun(r) && AcceptedIn(r, accepted) && i < |r.actions|
    ensures r.states[i].partner.book.proof.Some? <==> exists j :: 0 <= j < i && accepted[j].Some?
  {
    RunIsLinked(r, accepted);
    StoredProofIsNewest(r.states, accepted, i);
  }

  /** One step: the update carries the stored proof and expires with the settlement window. */
  lemma ClosedSends(c: Channel, a: Action)
    requires ClosedByOther(c, a) && IsUnclosed(c) && c.partner.book.proof.Some? && c.updateTx.None?
    ensures Step(c, a).Next?
    ensures Step(c, a).events == [ContractUpdateTransfer(a.block + c.settleTimeout, c.partner.book.proof.value)]
  {
  }

  lemma OthersSendNoUpdate(c: Channel, a: Action)
    requires Step(c, a).Next?
    requires !ClosedByOther(c, a) || !IsUnclosed(c) || c.partner.book.proof.None? || c.updateTx.Some?
    ensures forall v :: v in Step(c, a).events ==> !v.ContractUpdateTransfer?
  {
    forall v | v in Step(c, a).events && v.ContractUpdateTransfer? ensures false { UpdateStep(c, a, v); }
  }

  /** The events of step `i` are exactly one update with the newest accepted proof. */
  ghost predicate SendsNewest(r: Run, accepted: seq<Option<BalanceProof>>, i: nat)
    requires IsRun(r) && AcceptedIn(r, accepted) && i < |r.actions| && r.actions[i].AClosed?
  {
    exists bp :: IsNewest(accepted, i, bp)
      && r.events[i] == [ContractUpdateTransfer(r.actions[i].block + r.states[0].settleTimeout, bp)]
  }

  lemma CarriedIsNewest(r: Run, accepted: seq<Option<BalanceProof>>, i: nat, v: Event)
    requires NewRun(r) && AcceptedIn(r, accepted) && i < |r.actions|
    requires v in r.events[i] && v.ContractUpdateTransfer?
    ensures IsNewest(accepted, i, v.bp)
  {
    OnchainProofIsNewest(r, accepted, i, v, Some(v.bp));
  }

  lemma DueSendsStored(r: Run, i: nat)
    requires IsRun(r) && TxInv(r.states[0]) && r.states[0].updateTx.None? && i < |r.actions|
    requires ClosedByOther(r.states[i], r.actions[i]) && IsUnclosed(r.states[i])
    requires r.states[i].partner.book.proof.Some?
    requires forall k :: 0 <= k < i ==> !SeesUpdate(r.states[k], r.actions[k])
    ensures r.events[i] == [ContractUpdateTransfer(r.actions[i].block + r.states[0].settleTimeout,
                                                   r.states[i].partner.book.proof.value)]
  {
    NoUpdateYet(r, i);
    SameChannelId(r, i);
    ClosedSends(r.states[i], r.actions[i]);
    assert StepAt(r, i);
  }

  lemma DueUpdateIsSent(r: Run, accepted: seq<Option<BalanceProof>>, i: nat)
    requires NewRun(r) && AcceptedIn(r, accepted) && i < |r.actions| && UpdateIsDue(r, accepted, i)
    ensures SendsNewest(r, accepted, i)
  {
    StoredIffAccepted(r, accepted, i);
    DueSendsStored(r, i);
    CarriedIsNewest(r, accepted, i, r.events[i][0]);
  }

  lemma OnlyDueUpdatesAreSent(r: Run, accepted: seq<Option<BalanceProof>>, i: nat, v: Event)
    requires NewRun(r) && AcceptedIn(r, accepted) && i < |r.actions|
    requires v in r.events[i] && v.ContractUpdateTransfer?
    ensures UpdateIsDue(r, accepted, i)
  {
    var c, a := r.states[i], r.actions[i];
    assert StepAt(r, i);
    StoredIffAccepted(r, accepted, i);
    UpdateStep(c, a, v);
    if !ClosedByOther(c, a) { OthersSendNoUpdate(c, a); }
    forall k | 0 <= k < i ensures !SeesUpdate(r.states[k], r.actions[k]) {
      if SeesUpdate(r.states[k], r.actions[k]) { SeenUpdateStays(r, k, i); }
    }
  }

  /**
   A node answers a close with an update transfer exactly when somebody else closed
   the channel while it was opened or closing, a proof of the partner was accepted
   before, and no update was seen.  The step then sends the newest accepted proof,
   valid until the end of the settlement window, and nothing else.
   */
  lemma UpdateSentIff(r: Run, accepted: seq<Option<BalanceProof>>, i: nat)
    requires NewRun(r) && AcceptedIn(r, accepted) && i < |r.actions|
    ensures (exists v :: v in r.events[i] && v.ContractUpdateTransfer?) <==> UpdateIsDue(r, accepted, i)
    ensures UpdateIsDue(r, accepted, i) ==> SendsNewest(r, accepted, i)
  {
    if UpdateIsDue(r, accepted, i) {
      DueUpdateIsSent(r, accepted, i);
      assert r.events[i][0] in r.events[i];
    }
    if v :| v in r.events[i] && v.ContractUpdateTransfer? { OnlyDueUpdatesAreSent(r, accepted, i, v); }
  }

  /* ---- close ---- */

  /** The proof that goes with a close: the newest accepted one, or none if none was accepted. */
  ghost predicate NewestOrNone(accepted: seq<Option<BalanceProof>>, i: nat, proof: Option<BalanceProof>)
    requires i <= |accepted|
  {
    match proof
    case Some(bp) => IsNewest(accepted, i, bp)
    case None => forall j :: 0 <= j < |accepted| ==> accepted[j].None?
  }

  lemma CloseSendsStored(c: Channel, a: Action)
    requires Step(c, a).Next?
    ensures a.AClose? ==> a.channelId == c.id.channelId
    ensures (exists v :: v in Step(c, a).events && v.ContractClose?) <==> a.AClose? && IsUnclosed(c)
    ensures a.AClose? && IsUnclosed(c) ==> Step(c, a).events == [ContractClose(c.partner.book.proof)]
    ensures a.AClose? && !IsUnclosed(c) ==> Step(c, a) == Next(c, [])
  {
    if a.AClose? {
      if IsUnclosed(c) { assert Step(c, a).events[0].ContractClose?; }
    } else {
      NoCloseEvent(c, a);
    }
  }

  /**
   A close transaction is sent exactly when the user asks for it while the channel
   is opened or closing, with the newest proof of the partner that was accepted.
   */
  lemma CloseSentIff(r: Run, accepted: seq<Option<BalanceProof>>, i: nat)
    requires NewRun(r) && AcceptedIn(r, accepted) && i < |r.actions|
    ensures (exists v :: v in r.events[i] && v.ContractClose?) <==> r.actions[i].AClose? && IsUnclosed(r.states[i])
    ensures r.actions[i].AClose? && IsUnclosed(r.states[i]) ==>
      exists proof :: r.events[i] == [ContractClose(proof)] && NewestOrNone(accepted, i, proof)
  {
    assert StepAt(r, i);
    CloseSendsStored(r.states[i], r.actions[i]);
    if r.actions[i].AClose? && IsUnclosed(r.states[i]) {
      var proof := r.states[i].partner.book.proof;
      OnchainProofIsNewest(r, accepted, i, ContractClose(proof), proof);
      assert NewestOrNone(accepted, i, proof);
    }
  }

  /** A close for another channel raises. */
  lemma ForeignCloseRaises(c: Channel, a: Action)
    requires a.AClose? && a.channelId != c.id.channelId
    ensures Step(c, a) == Raised
  {
  }

  /* ---- settlement ---- */

  /** The chain reports that the channel was closed in this block. */
  ghost predicate SeesClose(c: Channel, a: Action) { a.AClosed? && a.channelId == c.id.channelId && IsUnclosed(c) }

  ghost predicate SeesSettlement(c: Channel, a: Action) { a.ASettled? && a.info.channelId == c.id.channelId }

  /** The channel is known to be closed in `block`. */
  ghost predicate ClosedIn(c: Channel, block: nat) {
    c.closeTx.Some? && c.closeTx.value.finished == Some(block) && c.closeTx.value.result == Some(Success)
  }

  lemma CloseIsRecorded(c: Channel, a: Action)
    requires SeesClose(c, a) && TxInv(c)
    ensures Step(c, a).Next? && ClosedIn(Step(c, a).channel, a.block) && Step(c, a).channel.settleTx.None?
  {
  }

  /** Nothing changes the block of the close again. */
  lemma CloseStays(c: Channel, a: Action, block: nat)
    requires Step(c, a).Next? && ClosedIn(c, block)
    ensures ClosedIn(Step(c, a).channel, block)
  {
    if TouchesLocks(a) {
      SendsKeepTransactions(c, a);
    } else if || a.AWithdraw? || a.ACoopSettle? || a.AReceiveWithdrawRequest?
              || a.AReceiveWithdrawConfirmation? || a.AReceiveWithdrawExpired?
    {
      WithdrawsKeepTransactions(c, a);
    }
  }

  lemma {:induction false} CloseStaysAlong(r: Run, i: nat, j: nat, block: nat)
    requires IsRun(r) && i <= j < |r.states| && ClosedIn(r.states[i], block)
    ensures ClosedIn(r.states[j], block)
    decreases j - i
  {
    if i < j {
      CloseStaysAlong(r, i, j - 1, block);
      assert StepAt(r, j - 1);
      CloseStays(r.states[j - 1], r.actions[j - 1], block);
    }
  }

  /** A settle transaction appears only by sending it or by seeing the settlement. */
  lemma SettleTxStep(c: Channel, a: Action)
    requires Step(c, a).Next? && c.settleTx.None? && Step(c, a).channel.settleTx.Some?
    ensures SeesSettlement(c, a) || Step(c, a).events == [ContractSettle]
  {
    if TouchesLocks(a) {
      SendsKeepTransactions(c, a);
    } else if || a.AWithdraw? || a.ACoopSettle? || a.AReceiveWithdrawRequest?
              || a.AReceiveWithdrawConfirmation? || a.AReceiveWithdrawExpired?
    {
      WithdrawsKeepTransactions(c, a);
    }
  }

  /** Since step `i`, the settlement has neither been sent nor seen. */
  ghost predicate NotSettledSince(r: Run, i: nat, j: nat)
    requires IsRun(r) && j <= |r.actions|
  {
    forall k :: i <= k < j ==> !SeesSettlement(r.states[k], r.actions[k]) && ContractSettle !in r.events[k]
  }

  lemma {:induction false} NoSettleTxYet(r: Run, i: nat, j: nat)
    requires IsRun(r) && i <= j < |r.states| && r.states[i].settleTx.None? && NotSettledSince(r, i, j)
    ensures r.states[j].settleTx.None?
    decreases j - i
  {
    if i < j {
      NoSettleTxYet(r, i, j - 1);
      assert StepAt(r, j - 1);
      if r.states[j].settleTx.Some? { SettleTxStep(r.states[j - 1], r.actions[j - 1]); }
    }
  }

  lemma SettlementStays(r: Run, k: nat, j: nat)
    requires IsRun(r) && k < j < |r.states|
    requires SeesSettlement(r.states[k], r.actions[k]) || ContractSettle in r.events[k]
    ensures r.states[j].settleTx.Some?
  {
    assert StepAt(r, k);
    if ContractSettle in r.events[k] { SettleStep(r.states[k], r.actions[k]); }
    TransactionsForward(r, k + 1, j);
  }

  /** One block of a closed channel. */
  lemma BlockSettles(c: Channel, block: nat, closed: nat)
    requires Step(c, ABlock(block)).Next? && ClosedIn(c, closed) && c.settleTx.None?
    ensures Step(c, ABlock(block)).events == if block > closed + c.settleTimeout then [ContractSettle] else []
  {
  }

  /**
   Once the chain has reported the close in some block, a later block makes the
   node send the settle transaction exactly when the settlement window after that
   block is over and the settlement has been neither sent nor seen since.
   */
  lemma SettleSentIff(r: Run, i: nat, j: nat)
    requires IsRun(r) && TxInv(r.states[0]) && i < j < |r.actions|
    requires SeesClose(r.states[i], r.actions[i]) && r.actions[j].ABlock?
    ensures ContractSettle in r.events[j] <==>
      r.actions[j].block > r.actions[i].block + r.states[0].settleTimeout && NotSettledSince(r, i + 1, j)
  {
    assert StepAt(r, i) && StepAt(r, j);
    TransactionsForward(r, 0, i);
    SameChannelId(r, j);
    CloseIsRecorded(r.states[i], r.actions[i]);
    CloseStaysAlong(r, i + 1, j, r.actions[i].block);
    if NotSettledSince(r, i + 1, j) {
      NoSettleTxYet(r, i + 1, j);
      BlockSettles(r.states[j], r.actions[j].block, r.actions[i].block);
    } else {
      var k :| i + 1 <= k < j && (SeesSettlement(r.states[k], r.actions[k]) || ContractSettle in r.events[k]);
      SettlementStays(r, k, j);
      if ContractSettle in r.events[j] { SettleStep(r.states[j], r.actions[j]); }
    }
  }

  /**
   A settlement that is seen removes the channel exactly when neither side settled
   with locks; otherwise both locksroots are kept, the channel is settled and the
   unlock of the locks is asked for, once.
   */
  lemma SettlementSeen(c: Channel, i: SettleInfo)
    requires i.channelId == c.id.channelId && TxInv(c)
    ensures var o := Step(c, ASettled(i));
      if i.ourLocksroot == NoLocksRoot() && i.partnerLocksroot == NoLocksRoot() then o == Removed([])
      else
        && o == Next(o.channel, [ContractBatchUnlock(c.partner.address)]) && GetStatus(o.channel) == Settled
        && o.channel == c.(settleTx := o.channel.settleTx, our := c.our.(onchainLocksroot := i.ourLocksroot),
                           partner := c.partner.(onchainLocksroot := i.partnerLocksroot))
  {
  }

  /** The channel is known to be settled in `block`. */
  ghost predicate SettledIn(c: Channel, block: nat) {
    c.settleTx.Some? && c.settleTx.value.finished == Some(block) && c.settleTx.value.result == Some(Success)
  }

  lemma SettledStays(c: Channel, a: Action, block: nat)
    requires Step(c, a).Next? && block > 0 && SettledIn(c, block)
    ensures SettledIn(Step(c, a).channel, block)
  {
    if TouchesLocks(a) {
      SendsKeepTransactions(c, a);
    } else if || a.AWithdraw? || a.ACoopSettle? || a.AReceiveWithdrawRequest?
              || a.AReceiveWithdrawConfirmation? || a.AReceiveWithdrawExpired?
    {
      WithdrawsKeepTransactions(c, a);
    }
  }

  /** The block in which the settlement is first seen is recorded, and kept for the rest of the run. */
  lemma {:induction false} FirstSettlementStays(r: Run, i: nat, j: nat)
    requires IsRun(r) && i < j < |r.states|
    requires SeesSettlement(r.states[i], r.actions[i]) && r.actions[i].info.block > 0
    requires r.states[i].settleTx.Some? ==> r.states[i].settleTx.value.finished.None?
    ensures SettledIn(r.states[j], r.actions[i].info.block)
    decreases j
  {
    assert StepAt(r, j - 1);
    if i + 1 < j {
      FirstSettlementStays(r, i, j - 1);
      SettledStays(r.states[j - 1], r.actions[j - 1], r.actions[i].info.block);
    }
  }

  lemma ForeignSettlement(c: Channel, i: SettleInfo)
    requires i.channelId != c.id.channelId
    ensures Step(c, ASettled(i)) == Next(c, [])
  {
  }

  /** Before the settlement is seen, and of a stranger, a batch unlock changes nothing. */
  lemma OtherBatchUnlock(c: Channel, sender: Address)
    requires GetStatus(c) != Settled || (sender != c.our.address && sender != c.partner.address)
    requires
      || c.our.onchainLocksroot != NoLocksRoot()
      || c.partner.onchainLocksroot != NoLocksRoot()
      || GetStatus(c) != Settled
    ensures Step(c, ABatchUnlock(sender)) == Next(c, [])
  {
  }
}
