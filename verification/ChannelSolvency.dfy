/**
 No end ever spends more than it has: its balance always covers its pending
 locks.  The source compares a withdraw with the balance and not with what is
 left beside the pending locks, so this holds for exactly those withdraws that
 also fit beside the locks.
 */
module ChannelSolvency {
  import opened Integers
  import opened LockCodec
  import opened ChannelState
  import opened ChannelTransitions
  import opened LockInvariant
  import opened ChannelRuns

  /* ---- totals of pending withdraws ---- */

  ghost predicate IsTotal(ws: seq<Withdraw>, t: int) { exists i :: 0 <= i < |ws| && ws[i].total == t }

  ghost predicate IsLargest(ws: seq<Withdraw>, m: int) {
    if ws == [] then m == 0
    else IsTotal(ws, m) && forall i :: 0 <= i < |ws| ==> ws[i].total <= m
  }

  lemma {:induction false} OffchainIsLargest(ws: seq<Withdraw>)
    ensures IsLargest(ws, OffchainWithdraw(ws))
  {
    if |ws| == 1 {
      assert ws[0].total == OffchainWithdraw(ws);
    } else if |ws| > 1 {
      var front := ws[..|ws| - 1];
      OffchainIsLargest(front);
      var i :| 0 <= i < |front| && front[i].total == OffchainWithdraw(front);
      assert ws[i].total == OffchainWithdraw(front);
      assert forall k :: 0 <= k < |front| ==> ws[k] == front[k];
    }
  }

  lemma {:induction false} PutTotals(ws: seq<Withdraw>, w: Withdraw)
    ensures PutWithdraw(ws, w) != []
    ensures forall t :: IsTotal(PutWithdraw(ws, w), t) <==> IsTotal(ws, t) || t == w.total
  {
    var put := PutWithdraw(ws, w);
    if ws == [] {
      assert put[0].total == w.total;
    } else if ws[0].total == w.total {
      assert put[0].total == w.total;
      forall t ensures IsTotal(put, t) <==> IsTotal(ws, t) || t == w.total {
        if IsTotal(put, t) {
          var i :| 0 <= i < |put| && put[i].total == t;
          assert ws[i].total == t;
        }
        if IsTotal(ws, t) {
          var i :| 0 <= i < |ws| && ws[i].total == t;
          assert put[i].total == t;
        }
      }
    } else {
      PutTotals(ws[1..], w);
      ConsTotals(ws[0], ws[1..]);
      ConsTotals(ws[0], PutWithdraw(ws[1..], w));
      assert ws == [ws[0]] + ws[1..];
    }
  }

  lemma ConsTotals(w: Withdraw, ws: seq<Withdraw>)
    ensures forall t :: IsTotal([w] + ws, t) <==> t == w.total || IsTotal(ws, t)
  {
    var all := [w] + ws;
    forall t ensures IsTotal(all, t) <==> t == w.total || IsTotal(ws, t) {
      if t == w.total { assert all[0].total == t; }
      if IsTotal(ws, t) {
        var i :| 0 <= i < |ws| && ws[i].total == t;
        assert all[i + 1].total == t;
      }
      if IsTotal(all, t) {
        var i :| 0 <= i < |all| && all[i].total == t;
        if i > 0 { assert ws[i - 1].total == t; }
      }
    }
  }

  lemma {:induction false} DropTotals(ws: seq<Withdraw>, total: int)
    ensures forall t :: IsTotal(DropWithdraw(ws, total), t) ==> IsTotal(ws, t)
  {
    if ws != [] {
      assert ws == [ws[0]] + ws[1..];
      ConsTotals(ws[0], ws[1..]);
      if ws[0].total != total {
        DropTotals(ws[1..], total);
        ConsTotals(ws[0], DropWithdraw(ws[1..], total));
      }
    }
  }

  /** A new total that is not below any pending one becomes the largest. */
  lemma PutOffchain(ws: seq<Withdraw>, w: Withdraw)
    requires ws == [] || w.total >= OffchainWithdraw(ws)
    ensures OffchainWithdraw(PutWithdraw(ws, w)) == w.total
  {
    var put := PutWithdraw(ws, w);
    PutTotals(ws, w);
    OffchainIsLargest(ws);
    OffchainIsLargest(put);
    assert IsTotal(put, w.total) && IsTotal(put, OffchainWithdraw(put));
  }

  lemma DropOffchain(ws: seq<Withdraw>, total: int)
    ensures OffchainWithdraw(DropWithdraw(ws, total)) <= Max(OffchainWithdraw(ws), 0)
  {
    DropTotals(ws, total);
    OffchainIsLargest(ws);
    OffchainIsLargest(DropWithdraw(ws, total));
    assert DropWithdraw(ws, total) != [] ==> IsTotal(ws, OffchainWithdraw(DropWithdraw(ws, total)));
  }

  /* ---- balances ---- */

  /** Neither balance is negative. */
  ghost predicate Funded(c: Channel) { Balance(c.our, c.partner) >= 0 && Balance(c.partner, c.our) >= 0 }

  /* ---- solvency ---- */

  /** The largest total withdraw that still leaves the pending locks of `sender` covered. */
  ghost function Room(sender: End, receiver: End): int {
    MaxWithdraw(sender, receiver) - AmountLocked(sender.book)
  }

  /** `balance >= locked amount` for `sender`. */
  ghost predicate EndSolvent(sender: End, receiver: End) { TotalWithdraw(sender) <= Room(sender, receiver) }

  ghost predicate Solvent(c: Channel) { EndSolvent(c.our, c.partner) && EndSolvent(c.partner, c.our) }

  /** Withdraws leave the locks covered; the source only asks that they leave the balance non-negative. */
  ghost predicate WithdrawsFit(c: Channel, a: Action) {
    match a
    case AWithdraw(total, _) => ValidTotalWithdraw(c, total, false) ==> total <= Room(c.our, c.partner)
    case AReceiveWithdrawRequest(m, _, _) => ValidWithdrawRequest(c, m) ==> m.total <= Room(c.partner, c.our)
    case AChainWithdraw(p, total) =>
      && (p == c.our.address ==> total <= Room(c.our, c.partner))
      && (p != c.our.address && p == c.partner.address ==> total <= Room(c.partner, c.our))
    case _ => true
  }

  /** Balances and withdraw totals are read from these parts of an end only. */
  ghost predicate SameFunds(e: End, f: End) {
    && f.book == e.book && f.contractBalance == e.contractBalance
    && f.onchainWithdraw == e.onchainWithdraw && f.withdraws == e.withdraws
  }

  lemma RequestedFunds(e: End, receiver: End, w: Withdraw, f: End)
    requires w.total >= TotalWithdraw(e)
    requires f.book == e.book && f.contractBalance == e.contractBalance && f.onchainWithdraw == e.onchainWithdraw
    requires f.withdraws == PutWithdraw(e.withdraws, w)
    ensures TotalWithdraw(f) == w.total
    ensures EndSolvent(f, receiver) <==> w.total <= Room(e, receiver)
  {
    PutOffchain(e.withdraws, w);
  }

  lemma DroppedFunds(e: End, receiver: End, total: int, f: End)
    requires EndSolvent(e, receiver)
    requires SameFunds(e.(withdraws := DropWithdraw(e.withdraws, total)), f)
    ensures EndSolvent(f, receiver)
  {
    DropOffchain(e.withdraws, total);
  }

  lemma {:induction false} ExpireLoopSolvent(e: End, ws: seq<Withdraw>, block: nat, receiver: End)
    requires EndSolvent(e, receiver)
    ensures EndSolvent(ExpireLoop(e, ws, block).0, receiver)
    decreases |ws|
  {
    if ws != [] && block >= SenderThreshold(ws[0].expiration) {
      var next := ExpireOne(e, ws[0]);
      DroppedFunds(e, receiver, ws[0].total, next);
      ExpireLoopSolvent(next, ws[1..], block, receiver);
    }
  }

  /** The other end's solvency only depends on what this end has transferred. */
  lemma OtherEndSolvent(e: End, receiver: End, receiver': End)
    requires EndSolvent(e, receiver) && Transferred(receiver'.book) >= Transferred(receiver.book)
    ensures EndSolvent(e, receiver')
  {
  }

  /* ---- steps that move locks ---- */

  /** `book` and what it commits to move together: this is all that solvency needs of a lock step. */
  lemma LockStepSolvent(e: End, receiver: End, f: End)
    requires EndSolvent(e, receiver)
    requires f.contractBalance == e.contractBalance && f.onchainWithdraw == e.onchainWithdraw
    requires f.withdraws == e.withdraws
    requires var committed := Transferred(f.book) + AmountLocked(f.book);
      || committed <= Transferred(e.book) + AmountLocked(e.book)
      || committed <= e.contractBalance + Transferred(receiver.book) - TotalWithdraw(e)
    ensures EndSolvent(f, receiver)
  {
  }

  /** The stored proof of `f` follows that of `e` by an unlock or by dropping or adding a lock. */
  lemma SendStepSolvent(c: Channel, d: Channel)
    requires LockInv(c.our.book) && LockInv(d.our.book) && Solvent(c) && d.partner == c.partner
    requires SameFunds(c.our.(book := d.our.book), d.our)
    requires Transferred(d.our.book) >= Transferred(c.our.book)
    requires Transferred(d.our.book) + AmountLocked(d.our.book) <= Transferred(c.our.book) + AmountLocked(c.our.book)
          || AmountLocked(d.our.book) + Transferred(d.our.book) <= Transferred(c.our.book) + Balance(c.our, c.partner)
    ensures Solvent(d)
  {
    LockStepSolvent(c.our, c.partner, d.our);
    OtherEndSolvent(c.partner, c.our, d.our);
  }

  lemma SendTransferSolvent(c: Channel, amount: int, expiration: int, h: SecretHash)
    requires ChannelLockInv(c) && Solvent(c) && !IsLockPending(c.our.book, h)
    requires DoSendLockedTransfer(c, amount, expiration, h).Next?
    ensures Solvent(DoSendLockedTransfer(c, amount, expiration, h).channel)
  {
    StepKeepsLocksIff(c, ASendLockedTransfer(amount, expiration, h));
    CurrentIsAmountLocked(c.our.book);
    SendStepSolvent(c, DoSendLockedTransfer(c, amount, expiration, h).channel);
  }

  lemma SendUnlockSolvent(c: Channel, secret: Secret, h: SecretHash, block: nat)
    requires ChannelLockInv(c) && Solvent(c) && DoSendUnlock(c, secret, h, block).Next?
    ensures Solvent(DoSendUnlock(c, secret, h, block).channel)
  {
    StepKeepsLocksIff(c, ASendUnlock(secret, h, block));
    SendStepSolvent(c, DoSendUnlock(c, secret, h, block).channel);
  }

  lemma SendExpiredSolvent(c: Channel, l: Lock)
    requires ChannelLockInv(c) && Solvent(c) && DoSendLockExpired(c, l).Next?
    requires LocksUsedProperly(c, ASendLockExpired(l))
    ensures Solvent(DoSendLockExpired(c, l).channel)
  {
    StepKeepsLocksIff(c, ASendLockExpired(l));
    SendStepSolvent(c, DoSendLockExpired(c, l).channel);
  }

  /** The mirror image of `c`: the partner's view with the roles swapped. */
  ghost function Swap(c: Channel): Channel { c.(our := c.partner, partner := c.our) }

  lemma ReceiveTransferSolvent(c: Channel, bp: BalanceProof, l: Lock, matches: bool)
    requires ChannelLockInv(c) && Solvent(c) && LocksUsedProperly(c, AReceiveLockedTransfer(bp, l, matches))
    ensures Solvent(DoReceiveLockedTransfer(c, bp, l, matches).channel)
  {
    StepKeepsLocksIff(c, AReceiveLockedTransfer(bp, l, matches));
    CurrentIsAmountLocked(c.partner.book);
    SendStepSolvent(Swap(c), Swap(DoReceiveLockedTransfer(c, bp, l, matches).channel));
  }

  lemma ReceiveUnlockSolvent(c: Channel, bp: BalanceProof, secret: Secret)
    requires ChannelLockInv(c) && Solvent(c)
    ensures Solvent(DoReceiveUnlock(c, bp, Sha256(secret)).channel)
  {
    StepKeepsLocksIff(c, AReceiveUnlock(bp, secret));
    CurrentIsAmountLocked(c.partner.book);
    SendStepSolvent(Swap(c), Swap(DoReceiveUnlock(c, bp, Sha256(secret)).channel));
  }

  lemma ReceiveExpiredSolvent(c: Channel, bp: BalanceProof, h: SecretHash, block: nat)
    requires ChannelLockInv(c) && Solvent(c)
    ensures Solvent(DoReceiveLockExpired(c, bp, h, block).channel)
  {
    StepKeepsLocksIff(c, AReceiveLockExpired(bp, h, block));
    CurrentIsAmountLocked(c.partner.book);
    SendStepSolvent(Swap(c), Swap(DoReceiveLockExpired(c, bp, h, block).channel));
  }

  lemma SecretsSolvent(c: Channel, d: Channel)
    requires Solvent(c)
    requires SameFunds(c.our.(book := d.our.book), d.our) && SameFunds(c.partner.(book := d.partner.book), d.partner)
    requires AmountLocked(d.our.book) == AmountLocked(c.our.book) && d.our.book.proof == c.our.book.proof
    requires AmountLocked(d.partner.book) == AmountLocked(c.partner.book)
    requires d.partner.book.proof == c.partner.book.proof
    ensures Solvent(d)
  {
  }

  lemma RegisterSecretSolvent(c: Channel, secret: Secret, h: SecretHash)
    requires ChannelLockInv(c) && Solvent(c)
    ensures Solvent(Step(c, ARegisterSecret(secret, h)).channel)
  {
    RegisterSecretKeeps(c.our.book, secret, h);
    RegisterSecretKeeps(c.partner.book, secret, h);
    SecretsSolvent(c, Step(c, ARegisterSecret(secret, h)).channel);
  }

  lemma RegisterOnchainSolvent(c: Channel, secret: Secret, h: SecretHash, block: nat, del: bool)
    requires ChannelLockInv(c) && Solvent(c) && LocksUsedProperly(c, ARegisterOnchainSecret(secret, h, block, del))
    ensures Solvent(Step(c, ARegisterOnchainSecret(secret, h, block, del)).channel)
  {
    if del {
      RegisterOnchainMoves(c.our.book, secret, h, block);
      RegisterOnchainMoves(c.partner.book, secret, h, block);
    }
    SecretsSolvent(c, Step(c, ARegisterOnchainSecret(secret, h, block, del)).channel);
  }

  /* ---- steps that move withdraws ---- */

  lemma WithdrawSolventIff(c: Channel, total: int, block: nat)
    requires Solvent(c)
    ensures Solvent(DoWithdraw(c, total, block).channel) <==> WithdrawsFit(c, AWithdraw(total, block))
  {
    if ValidTotalWithdraw(c, total, false) {
      var d := DoWithdraw(c, total, block).channel;
      var w := Withdraw(total, InitialExpiration(block, c.revealTimeout), c.our.nonce + 1);
      RequestedFunds(c.our, c.partner, w, d.our);
    }
  }

  lemma CoopSettleSolvent(c: Channel, block: nat)
    requires ChannelLockInv(c) && Solvent(c)
    ensures Solvent(DoCoopSettle(c, block).channel)
  {
    var total := MaxWithdraw(c.our, c.partner);
    if ValidCoopSettle(c, total) {
      var d := DoCoopSettle(c, block).channel;
      EmptyListNoLocks(c.our.book);
      var w := Withdraw(total, InitialExpiration(block, c.revealTimeout), c.our.nonce + 1);
      RequestedFunds(c.our, c.partner, w, d.our);
    }
  }

  lemma AcceptCoopSettleSolvent(c: Channel, m: WithdrawMessage)
    requires ChannelLockInv(c) && EndSolvent(c.our, c.partner)
    ensures AcceptCoopSettle(c, m).Next?
    ensures EndSolvent(AcceptCoopSettle(c, m).channel.our, c.partner)
    ensures SameFunds(c.partner, AcceptCoopSettle(c, m).channel.partner)
  {
    if c.our.book.pending == [] {
      var d := AcceptCoopSettle(c, m).channel;
      EmptyListNoLocks(c.our.book);
      if PriorToClosed(GetStatus(c)) {
        RequestedFunds(c.our, c.partner, Withdraw(MaxWithdraw(c.our, c.partner), m.expiration, c.our.nonce + 1), d.our);
      }
    }
  }

  lemma AnswerFunds(c: Channel, s: CoopSettle, m: WithdrawMessage, block: nat)
    requires AnswerOurCoopSettle(c, s, m, block).Next?
    ensures SameFunds(c.our, AnswerOurCoopSettle(c, s, m, block).channel.our)
    ensures SameFunds(c.partner, AnswerOurCoopSettle(c, s, m, block).channel.partner)
  {
  }

  /** Once a request is stored, only accepting a coop-settle moves funds, and those of this node. */
  lemma RequestFunds(c: Channel, m: WithdrawMessage, coop: bool, block: nat)
    requires ValidWithdrawRequest(c, m) && DoReceiveWithdrawRequest(c, m, coop, block).Next?
    ensures var d := StoreRequest(c, m);
      var e := DoReceiveWithdrawRequest(c, m, coop, block).channel;
      SameFunds(d.partner, e.partner) && (SameFunds(d.our, e.our) || e == AcceptCoopSettle(d, m).channel)
  {
    var d := StoreRequest(c, m);
    if d.our.coopSettle.Some? && AnswerOurCoopSettle(d, d.our.coopSettle.value, m, block).Next? {
      AnswerFunds(d, d.our.coopSettle.value, m, block);
    }
  }

  lemma WithdrawRequestSolventIff(c: Channel, m: WithdrawMessage, coop: bool, block: nat)
    requires ChannelLockInv(c) && Solvent(c) && DoReceiveWithdrawRequest(c, m, coop, block).Next?
    ensures Solvent(DoReceiveWithdrawRequest(c, m, coop, block).channel)
       <==> WithdrawsFit(c, AReceiveWithdrawRequest(m, coop, block))
  {
    if ValidWithdrawRequest(c, m) {
      var d := StoreRequest(c, m);
      RequestedFunds(c.partner, c.our, Withdraw(m.total, m.expiration, m.nonce), d.partner);
      OtherEndSolvent(c.our, c.partner, d.partner);
      AcceptCoopSettleSolvent(d, m);
      RequestFunds(c, m, coop, block);
    }
  }

  lemma ChainWithdrawSolventIff(e: End, receiver: End, total: nat)
    requires EndSolvent(e, receiver)
    ensures EndSolvent(WithdrawnOnchain(e, total), receiver) <==> total <= Room(e, receiver)
  {
    DropOffchain(e.withdraws, total);
  }

  lemma ConfirmationFunds(c: Channel, m: WithdrawMessage, block: nat)
    requires DoReceiveWithdrawConfirmation(c, m, block).Next?
    ensures SameFunds(c.our, DoReceiveWithdrawConfirmation(c, m, block).channel.our)
    ensures SameFunds(c.partner, DoReceiveWithdrawConfirmation(c, m, block).channel.partner)
  {
  }

  lemma WithdrawExpiredSolvent(c: Channel, m: WithdrawMessage, block: nat)
    requires Solvent(c)
    ensures Solvent(DoReceiveWithdrawExpired(c, m, block).channel)
  {
    var found := FindWithdraw(c.partner.withdraws, m.total);
    if found.Some? && ValidWithdrawExpired(c, m, found.value, block) {
      DroppedFunds(c.partner, c.our, found.value.total, DoReceiveWithdrawExpired(c, m, block).channel.partner);
    }
  }

  lemma BlockSolvent(c: Channel, block: nat)
    requires Solvent(c) && DoBlock(c, block).Next?
    ensures Solvent(DoBlock(c, block).channel)
  {
    ExpireLoopSolvent(c.our, c.our.withdraws, block, c.partner);
    ExpireLoopFrame(c.our, c.our.withdraws, block);
    OtherEndSolvent(c.partner, c.our, ExpireLoop(c.our, c.our.withdraws, block).0);
  }

  lemma DepositSolvent(e: End, receiver: End, balance: nat)
    requires EndSolvent(e, receiver)
    ensures EndSolvent(Deposit(e, balance), receiver)
  {
  }

  lemma DepositStepSolvent(c: Channel, participant: Address, balance: nat)
    requires Solvent(c)
    ensures Solvent(DoDeposit(c, participant, balance).channel)
  {
    DepositSolvent(c.our, c.partner, balance);
    DepositSolvent(c.partner, c.our, balance);
  }

  lemma ChainWithdrawStepSolventIff(c: Channel, participant: Address, total: nat)
    requires Solvent(c)
    ensures Solvent(DoChainWithdraw(c, participant, total).channel) <==>
      WithdrawsFit(c, AChainWithdraw(participant, total))
  {
    ChainWithdrawSolventIff(c.our, c.partner, total);
    ChainWithdrawSolventIff(c.partner, c.our, total);
  }

  ghost predicate IsIdle(a: Action) {
    a.AClose? || a.ASetRevealTimeout? || a.AClosed? || a.AUpdatedTransfer? || a.ASettled? || a.ABatchUnlock?
  }

  lemma IdleFunds(c: Channel, a: Action)
    requires IsIdle(a) && Step(c, a).Next?
    ensures SameFunds(c.our, Step(c, a).channel.our) && SameFunds(c.partner, Step(c, a).channel.partner)
  {
    match a
    case AClosed(_, _, _) =>
    case ASettled(_) =>
    case ABatchUnlock(_) =>
    case _ =>
  }

  lemma SameFundsSolvent(c: Channel, d: Channel)
    requires SameFunds(c.our, d.our) && SameFunds(c.partner, d.partner)
    ensures Solvent(c) <==> Solvent(d)
  {
  }

  lemma LockStepsSolvent(c: Channel, a: Action)
    requires TouchesLocks(a) && ChannelLockInv(c) && Solvent(c) && LocksUsedProperly(c, a) && Step(c, a).Next?
    ensures Solvent(Step(c, a).channel)
  {
    match a
    case ASendLockedTransfer(amount, expiration, h) => SendTransferSolvent(c, amount, expiration, h);
    case ASendUnlock(secret, h, block) => SendUnlockSolvent(c, secret, h, block);
    case ASendLockExpired(l) => SendExpiredSolvent(c, l);
    case ARegisterSecret(secret, h) => RegisterSecretSolvent(c, secret, h);
    case ARegisterOnchainSecret(secret, h, block, del) => RegisterOnchainSolvent(c, secret, h, block, del);
    case AReceiveLockedTransfer(bp, l, matches) => ReceiveTransferSolvent(c, bp, l, matches);
    case AReceiveUnlock(bp, secret) => ReceiveUnlockSolvent(c, bp, secret);
    case AReceiveLockExpired(bp, h, block) => ReceiveExpiredSolvent(c, bp, h, block);
  }

  /** A step keeps both ends solvent exactly when its withdraw, if any, fits beside the pending locks. */
  lemma StepKeepsSolventIff(c: Channel, a: Action)
    requires ChannelLockInv(c) && Solvent(c) && LocksUsedProperly(c, a) && Step(c, a).Next?
    ensures Solvent(Step(c, a).channel) <==> WithdrawsFit(c, a)
  {
    if TouchesLocks(a) {
      LockStepsSolvent(c, a);
    } else if IsIdle(a) {
      IdleFunds(c, a);
      SameFundsSolvent(c, Step(c, a).channel);
    } else {
      match a
      case AWithdraw(total, block) => WithdrawSolventIff(c, total, block);
      case ACoopSettle(block) => CoopSettleSolvent(c, block);
      case AReceiveWithdrawRequest(m, coop, block) => WithdrawRequestSolventIff(c, m, coop, block);
      case AReceiveWithdrawConfirmation(m, block) =>
        ConfirmationFunds(c, m, block);
        SameFundsSolvent(c, Step(c, a).channel);
      case AReceiveWithdrawExpired(m, block) => WithdrawExpiredSolvent(c, m, block);
      case ABlock(block) => BlockSolvent(c, block);
      case ADeposit(participant, balance) => DepositStepSolvent(c, participant, balance);
      case AChainWithdraw(participant, total) => ChainWithdrawStepSolventIff(c, participant, total);
      case _ =>
    }
  }

  /* ---- whole runs ---- */

  ghost predicate ProperStep(c: Channel, a: Action) { LocksUsedProperly(c, a) && WithdrawsFit(c, a) }

  ghost predicate ProperRun(r: Run) {
    IsRun(r) && forall i :: 0 <= i < |r.actions| ==> ProperStep(r.states[i], r.actions[i])
  }

  ghost predicate ChannelInv(c: Channel) { ChannelLockInv(c) && Solvent(c) }

  /** Every state of a proper run has matching indexes, lists and proofs, and covers its locks. */
  lemma {:induction false} ProperRunKeepsInvariant(r: Run, n: nat)
    requires ProperRun(r) && n < |r.states| && ChannelInv(r.states[0])
    ensures ChannelInv(r.states[n])
  {
    if n > 0 {
      ProperRunKeepsInvariant(r, n - 1);
      assert StepAt(r, n - 1);
      assert ProperStep(r.states[n - 1], r.actions[n - 1]);
      StepKeepsLocksIff(r.states[n - 1], r.actions[n - 1]);
      StepKeepsSolventIff(r.states[n - 1], r.actions[n - 1]);
    }
  }

  /**
   In a run that uses the locks properly, all states cover their locks exactly
   when every withdraw, asked for or seen on-chain, fits what is not locked.
   */
  lemma RunIsSolventIff(r: Run)
    requires IsRun(r) && ChannelInv(r.states[0])
    requires forall i :: 0 <= i < |r.actions| ==> LocksUsedProperly(r.states[i], r.actions[i])
    ensures (forall n :: 0 <= n < |r.states| ==> Solvent(r.states[n]))
       <==> (forall i :: 0 <= i < |r.actions| ==> WithdrawsFit(r.states[i], r.actions[i]))
  {
    if forall i :: 0 <= i < |r.actions| ==> WithdrawsFit(r.states[i], r.actions[i]) {
      forall n | 0 <= n < |r.states| ensures Solvent(r.states[n]) { ProperRunKeepsInvariant(r, n); }
    }
    if forall n :: 0 <= n < |r.states| ==> Solvent(r.states[n]) {
      forall i | 0 <= i < |r.actions| ensures WithdrawsFit(r.states[i], r.actions[i]) {
        ProperLocksKeep(r, i);
        assert StepAt(r, i);
        StepKeepsSolventIff(r.states[i], r.actions[i]);
      }
    }
  }

  /* ---- transferred amounts ---- */

  ghost predicate TransferredGrows(c: Channel, d: Channel) {
    Transferred(c.our.book) <= Transferred(d.our.book) && Transferred(c.partner.book) <= Transferred(d.partner.book)
  }

  lemma SendTransferredGrows(c: Channel, a: Action)
    requires Step(c, a).Next? && (a.ASendLockedTransfer? || a.ASendUnlock? || a.ASendLockExpired?)
    ensures TransferredGrows(c, Step(c, a).channel)
  {
  }

  lemma ReceiveTransferredGrows(c: Channel, a: Action)
    requires Step(c, a).Next? && (a.AReceiveLockedTransfer? || a.AReceiveUnlock? || a.AReceiveLockExpired?)
    ensures TransferredGrows(c, Step(c, a).channel)
  {
  }

  lemma StepTransferredGrows(c: Channel, a: Action)
    requires Step(c, a).Next?
    ensures TransferredGrows(c, Step(c, a).channel)
  {
    if a.ASendLockedTransfer? || a.ASendUnlock? || a.ASendLockExpired? {
      SendTransferredGrows(c, a);
    } else if a.AReceiveLockedTransfer? || a.AReceiveUnlock? || a.AReceiveLockExpired? {
      ReceiveTransferredGrows(c, a);
    } else if !TouchesLocks(a) {
      OtherActionsQuiet(c, a);
    }
  }

  /** What either end has transferred never decreases, in any run. */
  lemma {:induction false} TransferredNeverDecreases(r: Run, i: nat, j: nat)
    requires IsRun(r) && i <= j < |r.states|
    ensures TransferredGrows(r.states[i], r.states[j])
    decreases j - i
  {
    if i < j {
      TransferredNeverDecreases(r, i, j - 1);
      assert StepAt(r, j - 1);
      StepTransferredGrows(r.states[j - 1], r.actions[j - 1]);
    }
  }

  ghost predicate SameTotal(b: Book, d: Book) {
    Transferred(d) + AmountLocked(d) == Transferred(b) + AmountLocked(b)
  }

  lemma SendUnlockKeepsTotal(c: Channel, a: Action)
    requires ChannelLockInv(c) && Step(c, a).Next? && a.ASendUnlock?
    ensures SameTotal(c.our.book, Step(c, a).channel.our.book) && Step(c, a).channel.partner == c.partner
  {
    StepKeepsLocksIff(c, a);
  }

  lemma ReceiveUnlockKeepsTotal(c: Channel, a: Action)
    requires ChannelLockInv(c) && Step(c, a).Next? && a.AReceiveUnlock?
    ensures SameTotal(c.partner.book, Step(c, a).channel.partner.book) && Step(c, a).channel.our == c.our
  {
    StepKeepsLocksIff(c, a);
    CurrentIsAmountLocked(c.partner.book);
  }

  /** An unlock moves its amount from locked to transferred, for the sender and for the receiver. */
  lemma UnlockKeepsTotal(c: Channel, a: Action)
    requires ChannelLockInv(c) && Step(c, a).Next? && (a.ASendUnlock? || a.AReceiveUnlock?)
    ensures SameTotal(c.our.book, Step(c, a).channel.our.book)
    ensures SameTotal(c.partner.book, Step(c, a).channel.partner.book)
  {
    if a.ASendUnlock? { SendUnlockKeepsTotal(c, a); } else { ReceiveUnlockKeepsTotal(c, a); }
  }
}
