/**
 Exactly which messages of the partner, and which requests of the user, a channel
 takes.  For each state there is one message of a kind that can be taken for a
 given lock or total; everything else leaves the channel as it is.
 */
module ChannelMessages {
  import opened Options
  import opened LockCodec
  import opened ChannelState
  import opened ChannelTransitions
  import opened LockInvariant
  import opened ChannelSolvency
  import opened ChannelWithdraws

  /** Nothing has been done to close the channel. */
  predicate IsOpened(c: Channel) { c.closeTx.None? && c.settleTx.None? }

  /** The outcome takes the message: it is acknowledged.  Otherwise nothing happens but a report. */
  ghost predicate TakenExactlyIf(c: Channel, o: Outcome, condition: bool) {
    if condition then o.Next? && o.events == [SendProcessed] else o == Next(c, [Invalid])
  }

  /* ---- balance proofs ---- */

  /** The one balance proof that the partner can send next with these amounts and this pending list. */
  ghost function NextProof(c: Channel, transferred: int, locked: int, pending: seq<EncodedLock>): BalanceProof
    requires transferred >= 0 && locked >= 0
  {
    BalanceProof(c.partner.nonce + 1, transferred, locked, Locksroot(pending), c.id, Some(c.partner.address))
  }

  /** The partner's end after the proof, with the given dictionaries. */
  ghost predicate StoresProof(c: Channel, d: Channel, bp: BalanceProof, pending: seq<EncodedLock>) {
    && d == c.(partner := d.partner)
    && d.partner == c.partner.(book := d.partner.book, nonce := bp.nonce)
    && d.partner.book.proof == Some(bp) && d.partner.book.pending == pending
  }

  /**
   A locked transfer is taken exactly when the channel is opened, the lock is not
   listed, fewer than 160 are, the partner's balance covers its locks and the new
   one, and the proof is the next one with the lock added.
   */
  lemma TransferTakenIff(c: Channel, bp: BalanceProof, l: Lock)
    requires LockInv(c.partner.book)
    ensures var b := c.partner.book;
      TakenExactlyIf(c, Step(c, AReceiveLockedTransfer(bp, l, true)),
        && IsOpened(c) && Encode(l) !in b.pending && |b.pending| < 160
        && AmountLocked(b) + l.amount <= Balance(c.partner, c.our)
        && Transferred(b) + AmountLocked(b) + l.amount <= UINT256_MAX
        && bp == NextProof(c, Transferred(b), AmountLocked(b) + l.amount, b.pending + [Encode(l)]))
  {
    CurrentIsAmountLocked(c.partner.book);
  }

  lemma TakenTransferIsStored(c: Channel, bp: BalanceProof, l: Lock)
    requires Step(c, AReceiveLockedTransfer(bp, l, true)).events == [SendProcessed]
    ensures var d := Step(c, AReceiveLockedTransfer(bp, l, true)).channel;
      && StoresProof(c, d, bp, c.partner.book.pending + [Encode(l)])
      && d.partner.book.locked == c.partner.book.locked[l.secrethash := l]
      && d.partner.book.unlocked == c.partner.book.unlocked && d.partner.book.onchain == c.partner.book.onchain
  {
  }

  /** A refund that does not answer our transfer is not taken, whatever its proof. */
  lemma UnmatchedIsNotTaken(c: Channel, bp: BalanceProof, l: Lock)
    ensures Step(c, AReceiveLockedTransfer(bp, l, false)) == Next(c, [Invalid])
  {
  }

  /** An unlock is taken exactly when the channel is opened, the lock is known, and the proof moves its amount. */
  lemma UnlockTakenIff(c: Channel, bp: BalanceProof, secret: Secret)
    requires LockInv(c.partner.book)
    ensures var b := c.partner.book;
      var lock := GetLock(b, Sha256(secret));
      TakenExactlyIf(c, Step(c, AReceiveUnlock(bp, secret)),
        && IsOpened(c) && lock.Some? && Transferred(b) + AmountLocked(b) <= UINT256_MAX
        && lock.value.amount <= AmountLocked(b)
        && bp == NextProof(c, Transferred(b) + lock.value.amount, AmountLocked(b) - lock.value.amount,
                           RemoveFirst(b.pending, Encode(lock.value))))
  {
    var b := c.partner.book;
    CurrentIsAmountLocked(b);
    if GetLock(b, Sha256(secret)).Some? { LockIsCounted(b, GetLock(b, Sha256(secret)).value); }
  }

  lemma TakenUnlockIsStored(c: Channel, bp: BalanceProof, secret: Secret)
    requires Step(c, AReceiveUnlock(bp, secret)).events == [SendProcessed]
    ensures var d := Step(c, AReceiveUnlock(bp, secret)).channel;
      var h := Sha256(secret);
      && GetLock(c.partner.book, h).Some?
      && StoresProof(c, d, bp, RemoveFirst(c.partner.book.pending, Encode(GetLock(c.partner.book, h).value)))
      && d.partner.book.locked == c.partner.book.locked - {h}
      && d.partner.book.unlocked == c.partner.book.unlocked - {h}
      && d.partner.book.onchain == c.partner.book.onchain - {h}
  {
  }

  /**
   The expiry of a lock is taken exactly when the channel is opened, the lock is
   known and neither end has its secret from the chain, five blocks have passed
   since its expiration, and the proof gives its amount back.
   */
  lemma LockExpiryTakenIff(c: Channel, bp: BalanceProof, h: SecretHash, block: nat)
    requires LockInv(c.partner.book)
    ensures var b := c.partner.book;
      var lock := GetLock(b, h);
      TakenExactlyIf(c, Step(c, AReceiveLockExpired(bp, h, block)),
        && IsOpened(c) && lock.Some? && h !in b.onchain && h !in c.our.book.onchain
        && block >= lock.value.expiration + 5 && lock.value.amount <= AmountLocked(b)
        && Transferred(b) + AmountLocked(b) - lock.value.amount <= UINT256_MAX
        && bp == NextProof(c, Transferred(b), AmountLocked(b) - lock.value.amount,
                           RemoveFirst(b.pending, Encode(lock.value))))
  {
    var b := c.partner.book;
    CurrentIsAmountLocked(b);
    if GetLock(b, h).Some? { LockIsCounted(b, GetLock(b, h).value); }
  }

  lemma TakenExpiryIsStored(c: Channel, bp: BalanceProof, h: SecretHash, block: nat)
    requires Step(c, AReceiveLockExpired(bp, h, block)).events == [SendProcessed]
    ensures var d := Step(c, AReceiveLockExpired(bp, h, block)).channel;
      && GetLock(c.partner.book, h).Some?
      && StoresProof(c, d, bp, RemoveFirst(c.partner.book.pending, Encode(GetLock(c.partner.book, h).value)))
      && d.partner.book.locked == c.partner.book.locked - {h}
      && d.partner.book.unlocked == c.partner.book.unlocked - {h}
      && d.partner.book.onchain == c.partner.book.onchain
  {
  }

  /* ---- what this node sends ---- */

  /** The next proof of this node, before it is signed, is within the bounds of its fields. */
  predicate ProofFits(c: Channel, transferred: int, locked: int) {
    && c.our.nonce < UINT64_MAX && c.id.channelId <= UINT256_MAX
    && 0 <= transferred <= UINT256_MAX && 0 <= locked <= UINT256_MAX
  }

  ghost function OwnProof(c: Channel, transferred: int, locked: int, pending: seq<EncodedLock>): BalanceProof
    requires transferred >= 0 && locked >= 0
  {
    BalanceProof(c.our.nonce + 1, transferred, locked, Locksroot(pending), c.id, None)
  }

  /** A transfer can be sent: the balance covers it, the proof's amounts together fit 256 bits, the lock is new. */
  ghost predicate TransferFits(c: Channel, l: Lock) {
    var b := c.our.book;
    && IsOpened(c) && Encode(l) !in b.pending && AmountLocked(b) + l.amount <= Balance(c.our, c.partner)
    && (l.amount == 0 || Transferred(b) + AmountLocked(b) + l.amount <= UINT256_MAX)
    && ProofFits(c, Transferred(b), AmountLocked(b) + l.amount)
  }

  /** A transfer is sent exactly then, with the next proof; otherwise it raises. */
  lemma TransferSentIff(c: Channel, l: Lock)
    requires LockInv(c.our.book)
    ensures var b := c.our.book;
      var o := Step(c, ASendLockedTransfer(l.amount, l.expiration, l.secrethash));
      if TransferFits(c, l) then
        o.Next? && o.events ==
          [SendLockedTransfer(OwnProof(c, Transferred(b), AmountLocked(b) + l.amount, b.pending + [Encode(l)]), l)]
      else o == Raised
  {
    CurrentIsAmountLocked(c.our.book);
  }

  /** An unlock is sent exactly when the channel is opened and the lock pending and claimed on-chain or not expired. */
  lemma UnlockSentIff(c: Channel, secret: Secret, h: SecretHash, block: nat)
    requires LockInv(c.our.book)
    ensures var b := c.our.book;
      var lock := GetLock(b, h);
      var o := Step(c, ASendUnlock(secret, h, block));
      if && IsOpened(c) && lock.Some? && (h in b.onchain || block < lock.value.expiration)
         && lock.value.amount <= AmountLocked(b)
         && ProofFits(c, Transferred(b) + lock.value.amount, AmountLocked(b) - lock.value.amount)
      then
        o.Next? && o.events == [SendUnlock(OwnProof(c, Transferred(b) + lock.value.amount,
          AmountLocked(b) - lock.value.amount, RemoveFirst(b.pending, Encode(lock.value))), secret)]
      else o == Raised
  {
    var b := c.our.book;
    CurrentIsAmountLocked(b);
    if GetLock(b, h).Some? { LockIsCounted(b, GetLock(b, h).value); }
  }

  /** The expiry of a lock is sent exactly when it is listed in an opened channel; of any other, nothing is. */
  lemma LockExpirySentIff(c: Channel, l: Lock)
    requires LockInv(c.our.book)
    ensures var b := c.our.book;
      var o := Step(c, ASendLockExpired(l));
      if !IsOpened(c) || b.proof.None? then o == Raised
      else if Encode(l) !in b.pending then o == Next(c, [])
      else if l.amount <= AmountLocked(b) && ProofFits(c, Transferred(b), AmountLocked(b) - l.amount) then
        o.Next? && o.events == [SendLockExpired(
          OwnProof(c, Transferred(b), AmountLocked(b) - l.amount, RemoveFirst(b.pending, Encode(l))), l.secrethash)]
      else o == Raised
  {
    CurrentIsAmountLocked(c.our.book);
    if Encode(l) in c.our.book.pending {
      ListedLockIsIndexed(c.our.book, l);
      LockIsCounted(c.our.book, l);
    }
  }

  /* ---- withdraws ---- */

  /** The one message that the partner can send next about `total`. */
  function NextMessage(c: Channel, participant: Address, total: int, expiration: int): WithdrawMessage {
    WithdrawMessage(
      c.id, total, c.partner.nonce + 1, expiration, participant, c.partner.address, Some(c.partner.address))
  }

  /** A request of the partner is in order: properly signed, between what it has asked for and what it has. */
  ghost predicate RequestInOrder(c: Channel, m: WithdrawMessage) {
    && m == NextMessage(c, c.partner.address, m.total, m.expiration)
    && TotalWithdraw(c.partner) <= m.total <= MaxWithdraw(c.partner, c.our)
    && m.total + TotalWithdraw(c.our) <= UINT256_MAX
  }

  /** Such a request is stored with its nonce, even if a coop-settle goes wrong; any other leaves the channel alone. */
  lemma RequestStoredIff(c: Channel, m: WithdrawMessage, coop: bool, block: nat)
    ensures var o := Step(c, AReceiveWithdrawRequest(m, coop, block));
      if RequestInOrder(c, m) then
        o.Next? ==>
          && o.channel.partner.withdraws == PutWithdraw(c.partner.withdraws, Withdraw(m.total, m.expiration, m.nonce))
          && o.channel.partner.nonce == m.nonce
      else o == Next(c, [Invalid])
  {
    if RequestInOrder(c, m) {
      assert ValidWithdrawRequest(c, m);
      if DoReceiveWithdrawRequest(c, m, coop, block).Next? { RequestKeepsPartner(c, m, coop, block); }
    } else {
      assert !ValidWithdrawRequest(c, m);
    }
  }

  lemma RequestKeepsPartner(c: Channel, m: WithdrawMessage, coop: bool, block: nat)
    requires ValidWithdrawRequest(c, m) && DoReceiveWithdrawRequest(c, m, coop, block).Next?
    ensures var d := DoReceiveWithdrawRequest(c, m, coop, block).channel;
      d.partner.withdraws == StoreRequest(c, m).partner.withdraws && d.partner.nonce == m.nonce
  {
    RequestFunds(c, m, coop, block);
  }

  /** Outside a coop-settle the answer to such a request is one confirmation with our next nonce. */
  lemma PlainRequestConfirmed(c: Channel, m: WithdrawMessage, block: nat)
    requires RequestInOrder(c, m) && c.our.coopSettle.None?
    ensures var o := Step(c, AReceiveWithdrawRequest(m, false, block));
      && o.Next? && o.events == [SendWithdrawConfirmation(m.total, c.our.nonce + 1, m.expiration)]
      && o.channel.our == c.our.(nonce := c.our.nonce + 1)
  {
    assert ValidWithdrawRequest(c, m);
  }

  /** The withdraw of this total that is pending or, if none is, expired. */
  function KnownWithdraw(c: Channel, total: int): Option<Withdraw> {
    match FindWithdraw(c.our.withdraws, total)
    case Some(w) => Some(w)
    case None => FindWithdraw(c.our.withdrawsExpired, total)
  }

  /** A confirmation is in order: properly signed, for our largest total, with the expiration that we asked for. */
  ghost predicate ConfirmationInOrder(c: Channel, m: WithdrawMessage) {
    && m == NextMessage(c, c.our.address, m.total, m.expiration)
    && m.total == TotalWithdraw(c.our) && m.total + TotalWithdraw(c.partner) <= UINT256_MAX
    && KnownWithdraw(c, m.total).Some? && KnownWithdraw(c, m.total).value.expiration == m.expiration
  }

  /**
   A confirmation is taken exactly then.  Outside a coop-settle it leads to the
   on-chain withdraw exactly up to one reveal timeout after the expiration.
   */
  lemma ConfirmationTaken(c: Channel, m: WithdrawMessage, block: nat)
    requires c.our.coopSettle.None?
    ensures var o := Step(c, AReceiveWithdrawConfirmation(m, block));
      if ConfirmationInOrder(c, m) then
        && o.Next? && o.channel == c.(partner := c.partner.(nonce := m.nonce))
        && o.events == if c.partner.coopSettle.None? && block <= m.expiration + c.revealTimeout
                       then [SendProcessed, ContractWithdraw(m.total, m.expiration)] else [SendProcessed]
      else o == Next(c, [Invalid])
  {
    assert ValidWithdrawConfirmation(c, m) <==> ConfirmationInOrder(c, m);
  }

  /** The partner's expiry of a withdraw is taken exactly when it is pending and five blocks past its expiration. */
  lemma WithdrawExpiryTakenIff(c: Channel, m: WithdrawMessage, block: nat)
    ensures var w := FindWithdraw(c.partner.withdraws, m.total);
      TakenExactlyIf(c, Step(c, AReceiveWithdrawExpired(m, block)),
        && w.Some? && block >= w.value.expiration + 5
        && m.id == c.id && m.sender == c.partner.address && m.nonce == c.partner.nonce + 1)
  {
  }

  lemma TakenWithdrawExpiry(c: Channel, m: WithdrawMessage, block: nat)
    requires Step(c, AReceiveWithdrawExpired(m, block)).events == [SendProcessed]
    ensures var d := Step(c, AReceiveWithdrawExpired(m, block)).channel;
      var s := c.partner.coopSettle;
      && d == c.(partner := d.partner) && FindWithdraw(c.partner.withdraws, m.total).Some?
      && d.partner == c.partner.(withdraws := DropWithdraw(c.partner.withdraws, m.total), nonce := m.nonce,
           coopSettle := if s.Some? && s.value.totalInitiator == m.total
                            && s.value.expiration == FindWithdraw(c.partner.withdraws, m.total).value.expiration
                         then None else s)
  {
  }

  /* ---- requests of the user ---- */

  /** A withdraw is more than was asked for and no more than there is, in an opened channel. */
  ghost predicate WithdrawInOrder(c: Channel, total: int) {
    && IsOpened(c) && TotalWithdraw(c.our) < total <= MaxWithdraw(c.our, c.partner)
    && total + TotalWithdraw(c.partner) <= UINT256_MAX
  }

  /** It is then asked of the partner, with an expiration that is the last of two reveal timeouts from this block on. */
  lemma WithdrawAskedIff(c: Channel, total: int, block: nat)
    ensures var o := Step(c, AWithdraw(total, block));
      var expiration := block + 2 * c.revealTimeout - 1;
      if WithdrawInOrder(c, total) then
        && o == Next(o.channel, [SendWithdrawRequest(total, c.our.nonce + 1, expiration, false)])
        && o.channel == c.(our := c.our.(nonce := c.our.nonce + 1,
             withdraws := PutWithdraw(c.our.withdraws, Withdraw(total, expiration, c.our.nonce + 1))))
      else o == Next(c, [Invalid])
  {
  }

  /** A coop-settle needs an opened channel without locks or pending withdraws on either side, and funds to settle. */
  ghost predicate CoopSettleInOrderNow(c: Channel) {
    && IsOpened(c) && c.our.book.pending == [] && c.partner.book.pending == []
    && OffchainWithdraw(c.our.withdraws) <= 0 && OffchainWithdraw(c.partner.withdraws) <= 0
    && TotalWithdraw(c.our) <= MaxWithdraw(c.our, c.partner)
    && MaxWithdraw(c.our, c.partner) + TotalWithdraw(c.partner) <= UINT256_MAX
  }

  /** It then records the two totals and asks for ours as a coop-settle. */
  lemma CoopSettleAskedIff(c: Channel, block: nat)
    ensures var o := Step(c, ACoopSettle(block));
      var expiration := block + 2 * c.revealTimeout - 1;
      var ours, theirs := MaxWithdraw(c.our, c.partner), MaxWithdraw(c.partner, c.our);
      if CoopSettleInOrderNow(c) then
        && o == Next(o.channel, [SendWithdrawRequest(ours, c.our.nonce + 1, expiration, true)])
        && o.channel == c.(our := c.our.(nonce := c.our.nonce + 1,
             withdraws := PutWithdraw(c.our.withdraws, Withdraw(ours, expiration, c.our.nonce + 1)),
             coopSettle := Some(CoopSettle(ours, theirs, expiration, false, false, None))))
      else o == Next(c, [Invalid])
  {
  }

  /** A reveal timeout is taken exactly from seven blocks up to half the settlement window. */
  lemma RevealTimeoutTakenIff(c: Channel, timeout: int)
    ensures Step(c, ASetRevealTimeout(timeout)) ==
      if 7 <= timeout && 2 * timeout <= c.settleTimeout then Next(c.(revealTimeout := timeout), [])
      else Next(c, [Invalid])
  {
  }

  /* ---- withdraws that expire ---- */

  /** The pending withdraws up to the first that is not yet ten blocks past its expiration. */
  lemma {:induction false} ExpiredPrefixIs(ws: seq<Withdraw>, block: nat)
    ensures var k := ExpiredPrefix(ws, block);
      && k <= |ws| && (forall i :: 0 <= i < k ==> ws[i].expiration + 10 <= block)
      && (k < |ws| ==> ws[k].expiration + 10 > block)
    decreases |ws|
  {
    if ws != [] && ws[0].expiration + 10 <= block {
      ExpiredPrefixIs(ws[1..], block);
      var k := ExpiredPrefix(ws[1..], block);
      assert forall i :: 0 < i <= k ==> ws[i] == ws[1..][i - 1];
    }
  }

  /** The withdraw that belongs to a coop-settle record. */
  predicate Belongs(w: Withdraw, s: CoopSettle) { s.totalInitiator == w.total && s.expiration == w.expiration }

  /** A block clears our coop-settle record exactly when the withdraw that belongs to it expires. */
  lemma {:induction false} RecordExpires(e: End, block: nat)
    ensures var k := ExpiredPrefix(e.withdraws, block);
      ExpireLoop(e, e.withdraws, block).0.coopSettle ==
        if e.coopSettle.Some? && exists i :: 0 <= i < k && Belongs(e.withdraws[i], e.coopSettle.value) then None
        else e.coopSettle
    decreases |e.withdraws|
  {
    var ws := e.withdraws;
    if ws != [] && block >= SenderThreshold(ws[0].expiration) {
      var next := ExpireOne(e, ws[0]);
      assert next.withdraws == ws[1..];
      RecordExpires(next, block);
      assert forall i :: 0 < i < |ws| ==> ws[i] == ws[1..][i - 1];
      if e.coopSettle.Some? && Belongs(ws[0], e.coopSettle.value) {
        assert next.coopSettle.None?;
      }
      if i :| 0 <= i < ExpiredPrefix(ws[1..], block) && e.coopSettle.Some? && Belongs(ws[1..][i], e.coopSettle.value) {
        assert ws[i + 1] == ws[1..][i];
      }
    }
  }

  /** A block of an opened channel does this to our end, and one of a channel that is closing or settled nothing. */
  lemma BlockExpires(c: Channel, block: nat)
    requires GetStatus(c) != Closed
    ensures Step(c, ABlock(block)).Next?
    ensures Step(c, ABlock(block)).channel ==
      if IsOpened(c) then c.(our := ExpireLoop(c.our, c.our.withdraws, block).0) else c
  {
  }
}
