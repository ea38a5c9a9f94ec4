/**
 What a channel knows of the chain: after any run, the deposits are the largest that
 were seen, and the on-chain withdraws the last.
 */
module ChannelFunds {
  import opened ChannelState
  import opened ChannelTransitions
  import opened ChannelRuns
  import opened ChannelSolvency
  import opened ChannelChecks

  function EndOf(c: Channel, ours: bool): End { if ours then c.our else c.partner }

  /** The chain reports a deposit at that end. */
  predicate SeesDeposit(c: Channel, a: Action, ours: bool) { a.ADeposit? && Concerns(c, ours, a.participant) }

  predicate SeesWithdraw(c: Channel, a: Action, ours: bool) { a.AChainWithdraw? && Concerns(c, ours, a.participant) }

  ghost predicate SameChainFunds(e: End, f: End) {
    f.contractBalance == e.contractBalance && f.onchainWithdraw == e.onchainWithdraw
  }

  lemma LocksLeaveFunds(c: Channel, a: Action)
    requires TouchesLocks(a) && Step(c, a).Next?
    ensures SameChainFunds(c.our, Step(c, a).channel.our) && SameChainFunds(c.partner, Step(c, a).channel.partner)
  {
  }

  lemma RequestsLeaveFunds(c: Channel, a: Action)
    requires IsRequest(a) && Step(c, a).Next?
    ensures SameChainFunds(c.our, Step(c, a).channel.our) && SameChainFunds(c.partner, Step(c, a).channel.partner)
  {
    if a.AReceiveWithdrawRequest? && ValidWithdrawRequest(c, a.m) { RequestFunds(c, a.m, a.coopSettle, a.block); }
  }

  lemma ChainLeavesFunds(c: Channel, a: Action)
    requires !TouchesLocks(a) && !IsRequest(a) && !a.ADeposit? && !a.AChainWithdraw? && Step(c, a).Next?
    ensures SameChainFunds(c.our, Step(c, a).channel.our) && SameChainFunds(c.partner, Step(c, a).channel.partner)
  {
    if a.ABlock? { ExpireLoopFrame(c.our, c.our.withdraws, a.block); }
  }

  /** What a step does to what an end has on-chain. */
  ghost predicate FundsStep(c: Channel, a: Action, d: Channel, ours: bool) {
    var e, f := EndOf(c, ours), EndOf(d, ours);
    && (SeesDeposit(c, a, ours) ==> f.contractBalance >= e.contractBalance && f.contractBalance >= a.balance
                                    && f.contractBalance in {e.contractBalance, a.balance})
    && (!SeesDeposit(c, a, ours) ==> f.contractBalance == e.contractBalance)
    && (f.onchainWithdraw == if SeesWithdraw(c, a, ours) then a.withdrawn else e.onchainWithdraw)
  }

  lemma SeenFunds(c: Channel, a: Action, ours: bool)
    requires (a.ADeposit? || a.AChainWithdraw?) && Step(c, a).Next?
    ensures FundsStep(c, a, Step(c, a).channel, ours)
  {
  }

  lemma StepFunds(c: Channel, a: Action, ours: bool)
    requires Step(c, a).Next?
    ensures FundsStep(c, a, Step(c, a).channel, ours)
  {
    if TouchesLocks(a) {
      LocksLeaveFunds(c, a);
    } else if IsRequest(a) {
      RequestsLeaveFunds(c, a);
    } else if a.ADeposit? || a.AChainWithdraw? {
      SeenFunds(c, a, ours);
    } else {
      ChainLeavesFunds(c, a);
    }
  }

  /** The deposit in state `n` is the largest of the one at the start and those that were seen. */
  ghost predicate IsLargestDeposit(r: Run, ours: bool, n: nat)
    requires IsRun(r) && n < |r.states|
  {
    var deposit := EndOf(r.states[n], ours).contractBalance;
    && EndOf(r.states[0], ours).contractBalance <= deposit
    && (forall k :: 0 <= k < n && SeesDeposit(r.states[k], r.actions[k], ours) ==> r.actions[k].balance <= deposit)
    && (deposit == EndOf(r.states[0], ours).contractBalance
        || exists k :: 0 <= k < n && SeesDeposit(r.states[k], r.actions[k], ours) && r.actions[k].balance == deposit)
  }

  /** The on-chain withdraw in state `n` is the last that was seen, or the one at the start if none was. */
  ghost predicate IsLastWithdraw(r: Run, ours: bool, n: nat)
    requires IsRun(r) && n < |r.states|
  {
    var withdrawn := EndOf(r.states[n], ours).onchainWithdraw;
    || (exists k :: 0 <= k < n && SeesWithdraw(r.states[k], r.actions[k], ours) && r.actions[k].withdrawn == withdrawn
          && forall m :: k < m < n ==> !SeesWithdraw(r.states[m], r.actions[m], ours))
    || (withdrawn == EndOf(r.states[0], ours).onchainWithdraw
        && forall m :: 0 <= m < n ==> !SeesWithdraw(r.states[m], r.actions[m], ours))
  }

  lemma RunFundsStep(r: Run, k: nat, ours: bool)
    requires IsRun(r) && k < |r.actions|
    ensures FundsStep(r.states[k], r.actions[k], r.states[k + 1], ours)
  {
    assert StepAt(r, k);
    StepFunds(r.states[k], r.actions[k], ours);
  }

  lemma {:induction false} DepositIsLargest(r: Run, ours: bool, n: nat)
    requires IsRun(r) && n < |r.states|
    ensures IsLargestDeposit(r, ours, n)
    decreases n
  {
    if n > 0 {
      DepositIsLargest(r, ours, n - 1);
      RunFundsStep(r, n - 1, ours);
      assert FundsStep(r.states[n - 1], r.actions[n - 1], r.states[n - 1 + 1], ours);
    }
  }

  lemma {:induction false} WithdrawIsLast(r: Run, ours: bool, n: nat)
    requires IsRun(r) && n < |r.states|
    ensures IsLastWithdraw(r, ours, n)
    decreases n
  {
    if n > 0 {
      WithdrawIsLast(r, ours, n - 1);
      RunFundsStep(r, n - 1, ours);
      assert FundsStep(r.states[n - 1], r.actions[n - 1], r.states[n - 1 + 1], ours);
    }
  }

  /** A withdraw that is seen is no longer pending; the other pending ones stay. */
  lemma SeenWithdrawIsNotPending(c: Channel, participant: Address, total: nat, ours: bool)
    requires Concerns(c, ours, participant)
    ensures var o := Step(c, AChainWithdraw(participant, total));
      && o.Next? && EndOf(o.channel, ours).withdraws == DropWithdraw(EndOf(c, ours).withdraws, total)
      && EndOf(o.channel, !ours) == EndOf(c, !ours)
  {
  }
}
