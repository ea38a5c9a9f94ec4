/**
 The checks that are made.  Only `state_transition` is followed by `sanity_check`;
 the operations on locks are called by the payment tasks and are not.  What they
 break surfaces, if nothing repairs it, with the next state change.
 */
module ChannelChecks {
  import opened Integers
  import opened ChannelState
  import opened ChannelTransitions
  import opened ChannelRuns
  import opened ChannelSolvency
  import opened ChannelWithdraws
  import opened ChannelSanity

  /** What every operation on locks keeps: the shape of the books, and the order of our totals. */
  ghost predicate InShape(c: Channel) { Shaped(c) && OrderedWithoutRecord(c) }

  lemma SaneIsInShape(c: Channel)
    requires SaneChannel(c)
    ensures InShape(c)
  {
    ShapedSaneIff(c);
  }

  lemma LockStepKeepsShape(c: Channel, a: Action)
    requires InShape(c) && TouchesLocks(a) && Step(c, a).Next?
    ensures InShape(Step(c, a).channel)
  {
    StepBooks(c, a);
    OurWithdrawsFrame(c, a);
    LockStepRecords(c, a);
  }

  /* ---- balances after a state change ---- */

  /** The total that stays withdrawn, pending or on-chain, when the step drops pending withdraws. */
  function StaysWithdrawn(c: Channel, ours: bool, a: Action): int {
    var e := if ours then c.our else c.partner;
    match a
    case ABlock(block) =>
      if ours && GetStatus(c) == Opened then
        Max(OffchainWithdraw(e.withdraws[ExpiredPrefix(e.withdraws, block)..]), e.onchainWithdraw)
      else TotalWithdraw(e)
    case AReceiveWithdrawExpired(m, block) =>
      if !ours && TakesExpired(c, m, block) then
        Max(OffchainWithdraw(DropWithdraw(e.withdraws, m.total)), e.onchainWithdraw)
      else TotalWithdraw(e)
    case AChainWithdraw(p, total) =>
      if Concerns(c, ours, p) then Max(OffchainWithdraw(DropWithdraw(e.withdraws, total)), total) else TotalWithdraw(e)
    case _ => TotalWithdraw(e)
  }

  predicate TakesExpired(c: Channel, m: WithdrawMessage, block: nat) {
    var found := FindWithdraw(c.partner.withdraws, m.total);
    found.Some? && ValidWithdrawExpired(c, m, found.value, block)
  }

  /** The event is about that end. */
  predicate Concerns(c: Channel, ours: bool, participant: Address) {
    if ours then participant == c.our.address else participant != c.our.address && participant == c.partner.address
  }

  /** What the end has before withdraws, with a deposit that is seen. */
  function HasBeforeWithdraws(c: Channel, ours: bool, a: Action): int {
    var e := if ours then c.our else c.partner;
    var other := if ours then c.partner else c.our;
    var seen := a.ADeposit? && Concerns(c, ours, a.participant);
    MaxWithdraw(e, other) + (if seen then Max(a.balance - e.contractBalance, 0) else 0)
  }

  /** What stays withdrawn is covered at both ends. */
  predicate Covered(c: Channel, a: Action) {
    && StaysWithdrawn(c, true, a) <= HasBeforeWithdraws(c, true, a)
    && StaysWithdrawn(c, false, a) <= HasBeforeWithdraws(c, false, a)
  }

  lemma PutTotal(e: End, w: Withdraw, f: End)
    requires f.onchainWithdraw == e.onchainWithdraw && f.withdraws == PutWithdraw(e.withdraws, w)
    ensures TotalWithdraw(f) == Max(TotalWithdraw(e), w.total)
  {
    PutTotals(e.withdraws, w);
    OffchainIsLargest(e.withdraws);
    OffchainIsLargest(f.withdraws);
    assert IsTotal(f.withdraws, w.total) && IsTotal(f.withdraws, OffchainWithdraw(f.withdraws));
    assert e.withdraws != [] ==> IsTotal(f.withdraws, OffchainWithdraw(e.withdraws));
  }

  lemma WithdrawFundsIff(c: Channel, total: int, block: nat)
    ensures Funded(DoWithdraw(c, total, block).channel) <==> Funded(c)
  {
    if ValidTotalWithdraw(c, total, false) {
      var w := Withdraw(total, InitialExpiration(block, c.revealTimeout), c.our.nonce + 1);
      PutTotal(c.our, w, DoWithdraw(c, total, block).channel.our);
    }
  }

  lemma CoopSettleFundsIff(c: Channel, block: nat)
    ensures Funded(DoCoopSettle(c, block).channel) <==> Funded(c)
  {
    var total := MaxWithdraw(c.our, c.partner);
    if ValidCoopSettle(c, total) {
      var w := Withdraw(total, InitialExpiration(block, c.revealTimeout), c.our.nonce + 1);
      PutTotal(c.our, w, DoCoopSettle(c, block).channel.our);
    }
  }

  lemma AcceptFundsIff(c: Channel, m: WithdrawMessage)
    ensures AcceptCoopSettle(c, m).Next? && (Funded(AcceptCoopSettle(c, m).channel) <==> Funded(c))
  {
    if c.our.book.pending == [] && PriorToClosed(GetStatus(c)) {
      var w := Withdraw(MaxWithdraw(c.our, c.partner), m.expiration, c.our.nonce + 1);
      PutTotal(c.our, w, AcceptCoopSettle(c, m).channel.our);
    }
  }

  lemma StoredFundsIff(c: Channel, m: WithdrawMessage)
    requires ValidWithdrawRequest(c, m)
    ensures Funded(StoreRequest(c, m)) <==> Funded(c)
  {
    PutTotal(c.partner, Withdraw(m.total, m.expiration, m.nonce), StoreRequest(c, m).partner);
  }

  lemma RequestFundsIff(c: Channel, m: WithdrawMessage, coop: bool, block: nat)
    requires DoReceiveWithdrawRequest(c, m, coop, block).Next?
    ensures Funded(DoReceiveWithdrawRequest(c, m, coop, block).channel) <==> Funded(c)
  {
    if ValidWithdrawRequest(c, m) {
      var d := StoreRequest(c, m);
      StoredFundsIff(c, m);
      AcceptFundsIff(d, m);
      RequestFunds(c, m, coop, block);
      var e := DoReceiveWithdrawRequest(c, m, coop, block).channel;
      if SameFunds(d.our, e.our) { SameFundsFunded(d, e); }
    }
  }

  lemma ExpiredFundsIff(c: Channel, m: WithdrawMessage, block: nat)
    ensures Funded(DoReceiveWithdrawExpired(c, m, block).channel) <==> Covered(c, AReceiveWithdrawExpired(m, block))
  {
  }

  lemma BlockFundsIff(c: Channel, block: nat)
    requires DoBlock(c, block).Next?
    ensures Funded(DoBlock(c, block).channel) <==> Covered(c, ABlock(block))
  {
    LoopExpiresPrefixState(c.our, block);
    ExpireLoopFrame(c.our, c.our.withdraws, block);
  }

  lemma DepositFundsIff(c: Channel, participant: Address, balance: nat)
    ensures Funded(DoDeposit(c, participant, balance).channel) <==> Covered(c, ADeposit(participant, balance))
  {
  }

  lemma OnchainFundsIff(c: Channel, participant: Address, total: nat)
    ensures Funded(DoChainWithdraw(c, participant, total).channel) <==> Covered(c, AChainWithdraw(participant, total))
  {
  }

  /** Steps after which the balances have the sign they had before. */
  ghost predicate KeepsFunds(a: Action) { IsIdle(a) || (IsRequest(a) && !a.AReceiveWithdrawExpired?) }

  lemma RequestStepFunds(c: Channel, a: Action)
    requires KeepsFunds(a) && Step(c, a).Next?
    ensures Funded(Step(c, a).channel) <==> Funded(c)
  {
    if IsIdle(a) {
      IdleFunds(c, a);
      SameFundsFunded(c, Step(c, a).channel);
    } else {
      match a
      case AWithdraw(total, block) => WithdrawFundsIff(c, total, block);
      case ACoopSettle(block) => CoopSettleFundsIff(c, block);
      case AReceiveWithdrawRequest(m, coop, block) => RequestFundsIff(c, m, coop, block);
      case AReceiveWithdrawConfirmation(m, block) =>
        ConfirmationFunds(c, m, block);
        SameFundsFunded(c, Step(c, a).channel);
    }
  }

  lemma DroppingStepFunds(c: Channel, a: Action)
    requires !TouchesLocks(a) && !KeepsFunds(a) && Step(c, a).Next?
    ensures Funded(Step(c, a).channel) <==> Covered(c, a)
  {
    match a
    case AReceiveWithdrawExpired(m, block) => ExpiredFundsIff(c, m, block);
    case ABlock(block) => BlockFundsIff(c, block);
    case ADeposit(participant, balance) => DepositFundsIff(c, participant, balance);
    case AChainWithdraw(participant, total) => OnchainFundsIff(c, participant, total);
  }

  /** From any channel, a state change leaves no balance negative exactly when what stays withdrawn is covered. */
  lemma CoveredIff(c: Channel, a: Action)
    requires !TouchesLocks(a) && Step(c, a).Next?
    ensures Funded(Step(c, a).channel) <==> Covered(c, a)
  {
    if KeepsFunds(a) { RequestStepFunds(c, a); } else { DroppingStepFunds(c, a); }
  }

  /* ---- one check ---- */

  lemma OrderAfter(c: Channel, a: Action)
    requires InOrder(c) && !TouchesLocks(a) && Step(c, a).Next? && Funded(Step(c, a).channel)
    ensures OrderKept(c, a, Step(c, a).channel)
  {
    if Funded(c) {
      StepOrderIff(c, a);
    } else {
      if KeepsFunds(a) { RequestStepFunds(c, a); }
      match a
      case AReceiveWithdrawExpired(m, block) => WithdrawExpiredOrderIff(c, m, block);
      case ABlock(block) => BlockOrder(c, block);
      case _ => PlainStepOrder(c, a);
    }
  }

  /** What a caller can see before a state change about the check that follows it. */
  ghost predicate CheckGuard(c: Channel, a: Action) { AllListed(c) && Covered(c, a) && RecordGuard(c, a) }

  /**
   Whatever the operations on locks did since the last check: the next one passes
   exactly when every indexed lock is still listed, what stays withdrawn is covered
   at both ends, and a coop-settle record is cleared only while our totals are in
   order.
   */
  lemma CheckPassesIff(c: Channel, a: Action)
    requires InShape(c) && !TouchesLocks(a) && Step(c, a).Next?
    ensures SanityCheck(Step(c, a).channel) <==> CheckGuard(c, a)
    ensures SanityCheck(Step(c, a).channel) ==> InShape(Step(c, a).channel)
  {
    var d := Step(c, a).channel;
    OtherActionsQuiet(c, a);
    CoveredIff(c, a);
    if Funded(d) {
      OrderAfter(c, a);
      ShapedSaneIff(d);
    }
  }

  /* ---- all checks of a run ---- */

  ghost predicate KeepsInShape(c: Channel, d: Channel) { InShape(c) ==> InShape(d) }

  lemma {:induction false} InShapeAlong(states: seq<Channel>, n: nat)
    requires n < |states| && InShape(states[0]) && forall k :: 0 <= k < n ==> KeepsInShape(states[k], states[k + 1])
    ensures InShape(states[n])
  {
    if n > 0 {
      InShapeAlong(states, n - 1);
      assert KeepsInShape(states[n - 1], states[n - 1 + 1]);
    }
  }

  /** The check that follows step `i`, if there is one, passes. */
  ghost predicate PassesAt(r: Run, i: nat)
    requires IsRun(r) && i < |r.actions|
  {
    TouchesLocks(r.actions[i]) || SanityCheck(r.states[i + 1])
  }

  ghost predicate GuardedAt(r: Run, i: nat)
    requires IsRun(r) && i < |r.actions|
  {
    TouchesLocks(r.actions[i]) || CheckGuard(r.states[i], r.actions[i])
  }

  lemma StepInShape(r: Run, i: nat)
    requires IsRun(r) && i < |r.actions|
    ensures PassesAt(r, i) || GuardedAt(r, i) ==> KeepsInShape(r.states[i], r.states[i + 1])
    ensures InShape(r.states[i]) ==> (PassesAt(r, i) <==> GuardedAt(r, i))
  {
    assert StepAt(r, i);
    if InShape(r.states[i]) {
      if TouchesLocks(r.actions[i]) {
        LockStepKeepsShape(r.states[i], r.actions[i]);
      } else {
        CheckPassesIff(r.states[i], r.actions[i]);
      }
    }
  }

  /** All checks that are made in a run pass exactly when every state change that is followed by one is guarded. */
  lemma RunPassesChecksIff(r: Run)
    requires IsRun(r) && SaneChannel(r.states[0])
    ensures (forall i :: 0 <= i < |r.actions| ==> PassesAt(r, i))
       <==> (forall i :: 0 <= i < |r.actions| ==> GuardedAt(r, i))
  {
    SaneIsInShape(r.states[0]);
    if (forall i :: 0 <= i < |r.actions| ==> PassesAt(r, i)) || (forall i :: 0 <= i < |r.actions| ==> GuardedAt(r, i)) {
      forall k | 0 <= k < |r.actions| ensures KeepsInShape(r.states[k], r.states[k + 1]) { StepInShape(r, k); }
      forall k | 0 <= k < |r.actions| ensures PassesAt(r, k) <==> GuardedAt(r, k) {
        InShapeAlong(r.states, k);
        StepInShape(r, k);
      }
    }
  }
}
