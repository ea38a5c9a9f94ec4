/**
 Runs of one node's channel: any sequence of the operations of
 `raiden_common/transfer/channel.py`.  A state change that raises is rolled back
 by its caller and is not part of a run.
 */
module ChannelRuns {
  import opened LockCodec
  import opened ChannelState
  import opened ChannelTransitions
  import opened LockInvariant

  /** `events[i]` is what step `actions[i]` from `states[i]` to `states[i + 1]` emits. */
  datatype Run = Run(states: seq<Channel>, actions: seq<Action>, events: seq<seq<Event>>)

  ghost predicate StepAt(r: Run, i: nat) {
    && i < |r.actions| && i + 1 < |r.states| && i < |r.events|
    && Step(r.states[i], r.actions[i]) == Next(r.states[i + 1], r.events[i])
  }

  ghost predicate IsRun(r: Run) {
    && |r.states| == |r.actions| + 1 == |r.events| + 1
    && forall i :: 0 <= i < |r.actions| ==> StepAt(r, i)
  }

  /* ---- the lock indexes, the pending list and the stored proof ---- */

  ghost predicate ChannelLockInv(c: Channel) { LockInv(c.our.book) && LockInv(c.partner.book) }

  /**
   What a caller has to see to when adding, expiring or claiming a lock:
   a new secrethash, no expiry of a lock claimed on-chain, and the default
   `delete_lock`.
   */
  ghost predicate LocksUsedProperly(c: Channel, a: Action) {
    match a
    case ASendLockedTransfer(_, _, h) => !IsLockPending(c.our.book, h)
    case ASendLockExpired(l) => Encode(l) in c.our.book.pending ==> l.secrethash !in c.our.book.onchain
    case AReceiveLockedTransfer(bp, l, matches) =>
      matches && CheckLockedTransfer(c, c.partner, c.our, bp, l).Some? ==> !IsLockPending(c.partner.book, l.secrethash)
    case ARegisterOnchainSecret(_, h, block, del) =>
      del || (ClaimableLock(c.our.book, h, block).None? && ClaimableLock(c.partner.book, h, block).None?)
    case _ => true
  }

  lemma {:induction false} ExpireLoopFrame(e: End, ws: seq<Withdraw>, block: nat)
    ensures ExpireLoop(e, ws, block).0.book == e.book
    ensures ExpireLoop(e, ws, block).0.address == e.address
    ensures ExpireLoop(e, ws, block).0.contractBalance == e.contractBalance
    ensures ExpireLoop(e, ws, block).0.onchainWithdraw == e.onchainWithdraw
    ensures ExpireLoop(e, ws, block).0.onchainLocksroot == e.onchainLocksroot
    ensures ExpireLoop(e, ws, block).0.nonce >= e.nonce
    decreases |ws|
  {
    if ws != [] && block >= SenderThreshold(ws[0].expiration) {
      var next := ExpireOne(e, ws[0]);
      ExpireLoopFrame(next, ws[1..], block);
    }
  }

  /** What every step that adds or removes no lock leaves alone. */
  ghost predicate Quiet(c: Channel, d: Channel) {
    && d.our.book == c.our.book
    && d.partner.book == c.partner.book
    && SameParties(c, d)
  }

  ghost predicate SameParties(c: Channel, d: Channel) {
    && d.id == c.id
    && d.settleTimeout == c.settleTimeout
    && d.our.address == c.our.address
    && d.partner.address == c.partner.address
    && d.our.nonce >= c.our.nonce
    && d.partner.nonce >= c.partner.nonce
  }

  lemma WithdrawRequestQuiet(c: Channel, a: Action)
    requires a.AReceiveWithdrawRequest? && Step(c, a).Next?
    ensures Quiet(c, Step(c, a).channel)
  {
    if ValidWithdrawRequest(c, a.m) {
      var d := StoreRequest(c, a.m);
      assert Quiet(c, d);
      if d.our.coopSettle.Some? {
        var o := AnswerOurCoopSettle(d, d.our.coopSettle.value, a.m, a.block);
        assert o.Next? ==> Quiet(d, o.channel);
      } else {
        assert AcceptCoopSettle(d, a.m).Next? && Quiet(d, AcceptCoopSettle(d, a.m).channel);
      }
    }
  }

  lemma ExpiryQuiet(c: Channel, block: nat)
    requires DoBlock(c, block).Next?
    ensures Quiet(c, DoBlock(c, block).channel)
  {
    ExpireLoopFrame(c.our, c.our.withdraws, block);
  }

  lemma BlockQuiet(c: Channel, a: Action)
    requires a.ABlock? && Step(c, a).Next?
    ensures Quiet(c, Step(c, a).channel)
  {
    ExpiryQuiet(c, a.block);
  }

  lemma CloseQuiet(c: Channel, a: Action)
    requires (a.AClose? || a.AClosed? || a.AUpdatedTransfer?) && Step(c, a).Next?
    ensures Quiet(c, Step(c, a).channel)
  {
  }

  lemma SettleQuiet(c: Channel, a: Action)
    requires (a.ASettled? || a.ABatchUnlock?) && Step(c, a).Next?
    ensures Quiet(c, Step(c, a).channel)
  {
  }

  lemma FundsQuiet(c: Channel, a: Action)
    requires (a.ADeposit? || a.AChainWithdraw?) && Step(c, a).Next?
    ensures Quiet(c, Step(c, a).channel)
  {
  }

  lemma UserActionsQuiet(c: Channel, a: Action)
    requires (a.AWithdraw? || a.ACoopSettle? || a.ASetRevealTimeout?) && Step(c, a).Next?
    ensures Quiet(c, Step(c, a).channel)
  {
  }

  lemma WithdrawAnswersQuiet(c: Channel, a: Action)
    requires (a.AReceiveWithdrawConfirmation? || a.AReceiveWithdrawExpired?) && Step(c, a).Next?
    ensures Quiet(c, Step(c, a).channel)
  {
  }

  lemma OtherActionsQuiet(c: Channel, a: Action)
    requires !TouchesLocks(a) && Step(c, a).Next?
    ensures Quiet(c, Step(c, a).channel)
  {
    if a.ABlock? {
      BlockQuiet(c, a);
    } else if a.AReceiveWithdrawRequest? {
      WithdrawRequestQuiet(c, a);
    } else if a.AClose? || a.AClosed? || a.AUpdatedTransfer? {
      CloseQuiet(c, a);
    } else if a.ASettled? || a.ABatchUnlock? {
      SettleQuiet(c, a);
    } else if a.ADeposit? || a.AChainWithdraw? {
      FundsQuiet(c, a);
    } else if a.AWithdraw? || a.ACoopSettle? || a.ASetRevealTimeout? {
      UserActionsQuiet(c, a);
    } else {
      WithdrawAnswersQuiet(c, a);
    }
  }

  lemma SendLocksIff(c: Channel, a: Action)
    requires ChannelLockInv(c) && Step(c, a).Next?
    requires a.ASendLockedTransfer? || a.ASendUnlock? || a.ASendLockExpired?
    ensures ChannelLockInv(Step(c, a).channel) <==> LocksUsedProperly(c, a)
  {
    CurrentIsAmountLocked(c.our.book);
    match a
    case ASendLockedTransfer(amount, expiration, h) =>
      var t := CreateLockedTransfer(c, amount, expiration, h).value;
      AddLockKeepsIff(c.our.book, t.bp, t.lock);
    case ASendUnlock(secret, h, block) =>
      var l := GetLock(c.our.book, h).value;
      RemoveLockKeeps(c.our.book, Step(c, a).events[0].bp, l);
    case ASendLockExpired(l) =>
      if Encode(l) in c.our.book.pending {
        ListedLockIsIndexed(c.our.book, l);
        ExpireLockKeepsIff(c.our.book, Step(c, a).events[0].bp, l);
      }
  }

  lemma ReceiveLocksIff(c: Channel, a: Action)
    requires ChannelLockInv(c) && Step(c, a).Next?
    requires a.AReceiveLockedTransfer? || a.AReceiveUnlock? || a.AReceiveLockExpired?
    ensures ChannelLockInv(Step(c, a).channel) <==> LocksUsedProperly(c, a)
  {
    CurrentIsAmountLocked(c.partner.book);
    match a
    case AReceiveLockedTransfer(bp, l, matches) =>
      if matches && CheckLockedTransfer(c, c.partner, c.our, bp, l).Some? {
        AddLockKeepsIff(c.partner.book, bp, l);
      }
    case AReceiveUnlock(bp, secret) =>
      if CheckUnlock(c, c.partner, bp, Sha256(secret)).Some? {
        RemoveLockKeeps(c.partner.book, bp, GetLock(c.partner.book, Sha256(secret)).value);
      }
    case AReceiveLockExpired(bp, h, block) =>
      if CheckLockExpired(c, c.partner, c.our, bp, h, block).Some? {
        ExpireLockKeepsIff(c.partner.book, bp, GetLock(c.partner.book, h).value);
      }
  }

  /** A step keeps the lock invariant of both ends exactly when the locks are used properly. */
  lemma StepKeepsLocksIff(c: Channel, a: Action)
    requires ChannelLockInv(c) && Step(c, a).Next?
    ensures ChannelLockInv(Step(c, a).channel) <==> LocksUsedProperly(c, a)
  {
    if !TouchesLocks(a) {
      OtherActionsQuiet(c, a);
    } else if a.ARegisterSecret? {
      RegisterSecretKeeps(c.our.book, a.secret, a.secrethash);
      RegisterSecretKeeps(c.partner.book, a.secret, a.secrethash);
    } else if a.ARegisterOnchainSecret? {
      RegisterOnchainKeepsIff(c.our.book, a.secret, a.secrethash, a.revealBlock, a.deleteLock);
      RegisterOnchainKeepsIff(c.partner.book, a.secret, a.secrethash, a.revealBlock, a.deleteLock);
    } else if a.AReceiveLockedTransfer? || a.AReceiveUnlock? || a.AReceiveLockExpired? {
      ReceiveLocksIff(c, a);
    } else {
      SendLocksIff(c, a);
    }
  }

  ghost predicate KeepsLocks(c: Channel, d: Channel) { ChannelLockInv(c) ==> ChannelLockInv(d) }

  lemma ProperStepKeepsLocks(r: Run, i: nat)
    requires IsRun(r) && i < |r.actions| && LocksUsedProperly(r.states[i], r.actions[i])
    ensures KeepsLocks(r.states[i], r.states[i + 1])
  {
    assert StepAt(r, i);
    if ChannelLockInv(r.states[i]) { StepKeepsLocksIff(r.states[i], r.actions[i]); }
  }

  lemma {:induction false} LocksKeptAlong(states: seq<Channel>, n: nat)
    requires n < |states| && ChannelLockInv(states[0])
    requires forall k :: 0 <= k < n ==> KeepsLocks(states[k], states[k + 1])
    ensures ChannelLockInv(states[n])
  {
    if n > 0 {
      LocksKeptAlong(states, n - 1);
      assert KeepsLocks(states[n - 1], states[n - 1 + 1]);
    }
  }

  lemma ProperLocksKeep(r: Run, n: nat)
    requires IsRun(r) && n < |r.states| && ChannelLockInv(r.states[0])
    requires forall i :: 0 <= i < n ==> LocksUsedProperly(r.states[i], r.actions[i])
    ensures ChannelLockInv(r.states[n])
  {
    forall k | 0 <= k < n ensures KeepsLocks(r.states[k], r.states[k + 1]) { ProperStepKeepsLocks(r, k); }
    LocksKeptAlong(r.states, n);
  }

  /** All states of a run have the lock invariant exactly when every step of it uses the locks properly. */
  lemma RunKeepsLocksIff(r: Run)
    requires IsRun(r) && ChannelLockInv(r.states[0])
    ensures (forall n :: 0 <= n < |r.states| ==> ChannelLockInv(r.states[n]))
       <==> (forall i :: 0 <= i < |r.actions| ==> LocksUsedProperly(r.states[i], r.actions[i]))
  {
    if forall i :: 0 <= i < |r.actions| ==> LocksUsedProperly(r.states[i], r.actions[i]) {
      forall n | 0 <= n < |r.states| ensures ChannelLockInv(r.states[n]) { ProperLocksKeep(r, n); }
    }
    if forall n :: 0 <= n < |r.states| ==> ChannelLockInv(r.states[n]) {
      forall i | 0 <= i < |r.actions| ensures LocksUsedProperly(r.states[i], r.actions[i]) {
        assert StepAt(r, i);
        StepKeepsLocksIff(r.states[i], r.actions[i]);
      }
    }
  }
}
