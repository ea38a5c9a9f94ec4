/**
 Concrete runs from a new channel that break what one might expect of every run.
 */
module ChannelWitnesses {
  import opened Options
  import opened LockCodec
  import opened ChannelState
  import opened ChannelTransitions
  import opened LockInvariant
  import opened ChannelRuns
  import opened ChannelSolvency
  import opened ChannelWithdraws
  import opened ChannelSanity
  import opened ChannelChecks

  /* ---- the initial state ---- */

  /** The defaults of `NettingChannelEndState`. */
  function FreshEnd(address: Address, deposit: nat): End {
    End(address, deposit, 0, [], [], None, Book(map[], map[], map[], [], None), NoLocksRoot(), 0)
  }

  /** A new channel with these deposits. */
  ghost predicate IsNew(c: Channel, deposit: nat, partnerDeposit: nat) {
    && c.our == FreshEnd(c.our.address, deposit) && c.partner == FreshEnd(c.partner.address, partnerDeposit)
    && c.closeTx.None? && c.settleTx.None? && c.updateTx.None?
  }

  /** A new channel has all invariants and passes the check. */
  lemma NewChannelInv(c: Channel, deposit: nat, partnerDeposit: nat)
    requires IsNew(c, deposit, partnerDeposit)
    ensures ChannelInv(c) && Ordered(c.our.withdraws) && SaneChannel(c)
  {
    EmptyListNoLocks(c.our.book);
    ShapedSaneIff(c);
  }

  /* ---- runs that break something ---- */

  /** A new channel between two nodes whose deposits are an amount of 256 bits. */
  ghost predicate IsFresh(c: Channel, deposit: nat, partnerDeposit: nat) {
    && IsNew(c, deposit, partnerDeposit) && c.our.address != c.partner.address
    && deposit + partnerDeposit <= UINT256_MAX && c.id.channelId <= UINT256_MAX
  }

  /** The channel after a first transfer of `l` from a fresh channel. */
  ghost predicate HasOneLock(d: Channel, l: Lock) {
    && ChannelInv(d) && GetStatus(d) == Opened
    && d.our.book.locked == map[l.secrethash := l] && d.our.book.pending == [Encode(l)]
    && d.our.nonce == 1 && d.our.withdraws == [] && d.our.onchainWithdraw == 0
    && Transferred(d.our.book) == 0 && AmountLocked(d.our.book) == l.amount
  }

  lemma FirstTransfer(c: Channel, n: nat, l: Lock)
    requires IsFresh(c, n, 0) && l.amount <= n
    ensures var a := ASendLockedTransfer(l.amount, l.expiration, l.secrethash);
      && LocksUsedProperly(c, a) && Step(c, a).Next? && Step(c, a).channel == FirstTransferState(c, l)
      && HasOneLock(FirstTransferState(c, l), l)
  {
    var a := ASendLockedTransfer(l.amount, l.expiration, l.secrethash);
    NewChannelInv(c, n, 0);
    EmptyListNoLocks(c.our.book);
    assert c.our.book.pending + [Encode(l)] == [Encode(l)];
    assert c.our.book.locked[l.secrethash := l] == map[l.secrethash := l];
    assert CreateLockedTransfer(c, l.amount, l.expiration, l.secrethash).Some?;
    assert Step(c, a).channel == FirstTransferState(c, l);
    StepKeepsLocksIff(c, a);
    StepKeepsSolventIff(c, a);
  }

  ghost function FirstTransferState(c: Channel, l: Lock): Channel {
    var bp := BalanceProof(1, 0, l.amount, Locksroot([Encode(l)]), c.id, None);
    c.(our := WithBook(c.our, bp, Book(map[l.secrethash := l], map[], map[], [Encode(l)], Some(bp))))
  }

  /** A withdraw of the whole deposit is accepted although all of it is locked. */
  lemma WithdrawCanUncoverLocks(c: Channel, n: nat, l: Lock, block: nat)
    requires IsFresh(c, n, 0) && l.amount == n > 0
    ensures var d := FirstTransferState(c, l);
      && ChannelInv(d) && Step(d, AWithdraw(n, block)).Next?
      && Step(d, AWithdraw(n, block)).events != [Invalid]
      && !Solvent(Step(d, AWithdraw(n, block)).channel)
  {
    FirstTransfer(c, n, l);
    var d := FirstTransferState(c, l);
    assert ValidTotalWithdraw(d, n, false);
    WithdrawSolventIff(d, n, block);
  }

  /** A second transfer under the same secrethash is sent and leaves a lock that no dictionary holds. */
  lemma ReusedSecrethashBreaksIndexes(c: Channel, n: nat, l: Lock, l': Lock)
    requires IsFresh(c, n, 0) && l.amount + l'.amount <= n && l'.secrethash == l.secrethash && l' != l
    ensures var d := FirstTransferState(c, l);
      var a := ASendLockedTransfer(l'.amount, l'.expiration, l'.secrethash);
      ChannelInv(d) && Step(d, a).Next? && !ChannelLockInv(Step(d, a).channel)
  {
    FirstTransfer(c, n, l);
    var d := FirstTransferState(c, l);
    if Encode(l') == Encode(l) { EncodeInjective(l', l); }
    assert Encode(l') !in d.our.book.pending;
    CurrentIsAmountLocked(d.our.book);
    assert CreateLockedTransfer(d, l'.amount, l'.expiration, l'.secrethash).Some?;
    StepKeepsLocksIff(d, ASendLockedTransfer(l'.amount, l'.expiration, l'.secrethash));
  }

  /** The channel after a withdraw of everything, while everything is locked. */
  lemma WithdrawnIsSane(c: Channel, n: nat, l: Lock, block: nat)
    requires IsFresh(c, n, 0) && l.amount == n > 0
    ensures var o := Step(FirstTransferState(c, l), AWithdraw(n, block));
      && o.Next? && SaneChannel(o.channel) && GetStatus(o.channel) == Opened
      && o.channel.our.book == FirstTransferState(c, l).our.book && o.channel.our.nonce == 2 && o.channel.id == c.id
      && Balance(o.channel.our, o.channel.partner) == 0
  {
    FirstTransfer(c, n, l);
    NewChannelInv(c, n, 0);
    StepKeepsSaneIff(c, ASendLockedTransfer(l.amount, l.expiration, l.secrethash));
    var d := FirstTransferState(c, l);
    assert ValidTotalWithdraw(d, n, false);
    StepKeepsSaneIff(d, AWithdraw(n, block));
    var w := Withdraw(n, InitialExpiration(block, d.revealTimeout), 2);
    RequestedFunds(d.our, d.partner, w, Step(d, AWithdraw(n, block)).channel.our);
  }

  /**
   The balance can become negative: lock the deposit, withdraw it, unlock.  The
   check passes after the withdraw and fails after the unlock.
   */
  lemma UnlockOverdraws(c: Channel, n: nat, l: Lock, block: nat, secret: Secret, later: nat)
    requires IsFresh(c, n, 0) && l.amount == n > 0 && later < l.expiration
    ensures var d := Step(FirstTransferState(c, l), AWithdraw(n, block));
      && d.Next? && SanityCheck(d.channel)
      && var e := Step(d.channel, ASendUnlock(secret, l.secrethash, later));
      e.Next? && Balance(e.channel.our, e.channel.partner) == 0 - n && !SanityCheck(e.channel)
  {
    FirstTransfer(c, n, l);
    WithdrawnIsSane(c, n, l, block);
    var d := Step(FirstTransferState(c, l), AWithdraw(n, block)).channel;
    assert GetLock(d.our.book, l.secrethash) == Some(l);
    assert UnlockProof(d, l, later).Some?;
    StepKeepsSaneIff(d, ASendUnlock(secret, l.secrethash, later));
  }

  /** A negative balance fails the check of a state change that leaves the funds alone. */
  lemma NegativeFailsNext(c: Channel, timeout: int)
    requires InShape(c) && Balance(c.our, c.partner) < 0
    ensures var o := Step(c, ASetRevealTimeout(timeout)); o.Next? && !SanityCheck(o.channel)
  {
    CheckPassesIff(c, ASetRevealTimeout(timeout));
  }

  lemma UnlockedIsInShape(d: Channel, a: Action)
    requires SaneChannel(d) && a.ASendUnlock? && Step(d, a).Next?
    ensures InShape(Step(d, a).channel)
  {
    SaneIsInShape(d);
    LockStepKeepsShape(d, a);
  }

  /** No check follows the unlock; it fails with the next state change, such as a new reveal timeout. */
  lemma OverdrawSurfacesLater(c: Channel, n: nat, l: Lock, block: nat, secret: Secret, later: nat, timeout: int)
    requires IsFresh(c, n, 0) && l.amount == n > 0 && later < l.expiration
    ensures var d := Step(FirstTransferState(c, l), AWithdraw(n, block));
      && d.Next?
      && var e := Step(d.channel, ASendUnlock(secret, l.secrethash, later));
      && e.Next?
      && var o := Step(e.channel, ASetRevealTimeout(timeout)); o.Next? && !SanityCheck(o.channel)
  {
    UnlockOverdraws(c, n, l, block, secret, later);
    WithdrawnIsSane(c, n, l, block);
    var d := Step(FirstTransferState(c, l), AWithdraw(n, block)).channel;
    var a := ASendUnlock(secret, l.secrethash, later);
    UnlockedIsInShape(d, a);
    NegativeFailsNext(Step(d, a).channel, timeout);
  }

  /** The partner's request for a coop-settle of all it deposited, as the first message. */
  function SettleRequest(c: Channel, n: nat, nonce: nat, expiration: int): WithdrawMessage {
    WithdrawMessage(c.id, n, nonce, expiration, c.partner.address, c.partner.address, Some(c.partner.address))
  }

  /** What is left by accepting it while this node has nothing. */
  ghost predicate IsEmptySettle(d: Channel, n: nat, expiration: int) {
    && d.our.coopSettle.None? && d.our.withdraws == [Withdraw(0, expiration, 1)]
    && d.partner.coopSettle == Some(CoopSettle(n, 0, expiration, true, false, None))
    && d.partner.withdraws == [Withdraw(n, expiration, 1)] && d.partner.nonce == 1
  }

  lemma EmptySettleAccepted(c: Channel, n: nat, expiration: int, block: nat)
    requires IsFresh(c, 0, n)
    ensures var o := DoReceiveWithdrawRequest(c, SettleRequest(c, n, 1, expiration), true, block);
      && o.Next? && IsEmptySettle(o.channel, n, expiration)
      && o.channel.id == c.id && o.channel.partner.address == c.partner.address
  {
    assert ValidWithdrawRequest(c, SettleRequest(c, n, 1, expiration));
  }

  lemma EmptyCoopSettle(c: Channel, n: nat, expiration: int, block: nat)
    requires IsFresh(c, 0, n)
    ensures var o := Step(c, AReceiveWithdrawRequest(SettleRequest(c, n, 1, expiration), true, block));
      && o.Next? && SaneChannel(o.channel) && IsEmptySettle(o.channel, n, expiration)
      && o.channel.id == c.id && o.channel.partner.address == c.partner.address
  {
    NewChannelInv(c, 0, n);
    EmptySettleAccepted(c, n, expiration, block);
    StepKeepsSaneIff(c, AReceiveWithdrawRequest(SettleRequest(c, n, 1, expiration), true, block));
  }

  /** Accepting a coop-settle with nothing to take out stores a total of zero. */
  lemma EmptyCoopSettleBreaksOrder(c: Channel, n: nat, expiration: int, block: nat)
    requires IsFresh(c, 0, n)
    ensures var o := Step(c, AReceiveWithdrawRequest(SettleRequest(c, n, 1, expiration), true, block));
      o.Next? && !Ordered(o.channel.our.withdraws)
  {
    EmptyCoopSettle(c, n, expiration, block);
    var ws := [Withdraw(0, expiration, 1)];
    assert ws[0].total == 0;
  }

  /** When the partner then lets its request expire, the record is gone, the zero is not, and the check fails. */
  lemma ClearedRecordFailsCheck(c: Channel, n: nat, expiration: int, block: nat, later: nat)
    requires IsFresh(c, 0, n) && later >= ReceiverThreshold(expiration)
    ensures var d := Step(c, AReceiveWithdrawRequest(SettleRequest(c, n, 1, expiration), true, block));
      && d.Next? && SanityCheck(d.channel)
      && var e := Step(d.channel, AReceiveWithdrawExpired(SettleRequest(c, n, 2, expiration), later));
      e.Next? && !SanityCheck(e.channel)
  {
    EmptyCoopSettle(c, n, expiration, block);
    var d := Step(c, AReceiveWithdrawRequest(SettleRequest(c, n, 1, expiration), true, block)).channel;
    var a := AReceiveWithdrawExpired(SettleRequest(c, n, 2, expiration), later);
    assert d.our.withdraws[0].total == 0;
    assert ClearsLastRecord(d, a.m, later);
    StepKeepsSaneIff(d, a);
  }
}
