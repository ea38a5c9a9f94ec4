/**
 What becomes of a lock when its secret is learned: off-chain from the partner, or
 from the secret registry, in time or too late.
 */
module ChannelSecrets {
  import opened LockCodec
  import opened ChannelState
  import opened ChannelTransitions
  import opened ChannelRuns

  /** The lock is indexed once, not yet with an on-chain secret. */
  ghost predicate IsOpen(b: Book, h: SecretHash, l: Lock) {
    && h !in b.onchain
    && ((h in b.locked && h !in b.unlocked && b.locked[h] == l)
        || (h in b.unlocked && h !in b.locked && b.unlocked[h].lock == l))
  }

  /** The two books differ at most in what they hold under `h`. */
  ghost predicate SameElsewhere(b: Book, d: Book, h: SecretHash) {
    && d.locked - {h} == b.locked - {h} && d.unlocked - {h} == b.unlocked - {h} && d.onchain - {h} == b.onchain - {h}
    && d.pending == b.pending && d.proof == b.proof
  }

  /**
   A secret registered on-chain claims the lock exactly when it was registered no
   later than the lock expires.  The lock is then on-chain with that secret and in
   no other index; a late secret changes nothing.
   */
  lemma OnchainSecretClaimsIff(b: Book, secret: Secret, h: SecretHash, block: nat, l: Lock)
    requires IsOpen(b, h, l)
    ensures var d := RegisterOnchainBook(b, secret, h, block, true);
      && (h in d.onchain <==> block <= l.expiration)
      && (block <= l.expiration ==>
            d.onchain[h] == PartialProof(l, secret) && h !in d.locked && h !in d.unlocked && SameElsewhere(b, d, h))
      && (block > l.expiration ==> d == b)
  {
    var d := RegisterOnchainBook(b, secret, h, block, true);
    if block <= l.expiration {
      assert d.onchain - {h} == b.onchain - {h};
    }
  }

  /** Without an open lock under the secrethash nothing happens. */
  lemma UnknownSecretIgnored(b: Book, secret: Secret, h: SecretHash, block: nat, del: bool)
    requires h !in b.locked && h !in b.unlocked
    ensures RegisterOnchainBook(b, secret, h, block, del) == b && RegisterSecretBook(b, secret, h) == b
  {
  }

  /** A secret learned off-chain makes a locked lock claimable with it; any other lock stays where it is. */
  lemma OffchainSecretUnlocks(b: Book, secret: Secret, h: SecretHash)
    ensures var d := RegisterSecretBook(b, secret, h);
      && SameElsewhere(b, d, h)
      && (h in b.locked ==> h !in d.locked && h in d.unlocked && d.unlocked[h] == PartialProof(b.locked[h], secret))
      && (h !in b.locked ==> d == b)
  {
    var d := RegisterSecretBook(b, secret, h);
    if h in b.locked { assert d.unlocked - {h} == b.unlocked - {h}; }
  }

  /** Both ends of a channel learn of the secret. */
  lemma SecretsReachBothEnds(c: Channel, secret: Secret, h: SecretHash, block: nat, del: bool)
    ensures var d := Step(c, ARegisterSecret(secret, h));
      && d.Next? && d.events == []
      && d.channel == c.(our := d.channel.our, partner := d.channel.partner)
      && d.channel.our == c.our.(book := RegisterSecretBook(c.our.book, secret, h))
      && d.channel.partner == c.partner.(book := RegisterSecretBook(c.partner.book, secret, h))
    ensures var d := Step(c, ARegisterOnchainSecret(secret, h, block, del));
      && d.Next? && d.events == []
      && d.channel == c.(our := d.channel.our, partner := d.channel.partner)
      && d.channel.our == c.our.(book := RegisterOnchainBook(c.our.book, secret, h, block, del))
      && d.channel.partner == c.partner.(book := RegisterOnchainBook(c.partner.book, secret, h, block, del))
  {
  }

  /* ---- a claimed lock is safe ---- */

  /** The book of this node's end or of the partner's. */
  function BookOf(c: Channel, ours: bool): Book { if ours then c.our.book else c.partner.book }

  /** The step unlocks the lock: this node sends the unlock of its own, or takes the partner's. */
  ghost predicate Unlocks(c: Channel, a: Action, ours: bool, h: SecretHash) {
    if ours then
      && a.ASendUnlock? && GetLock(c.our.book, a.secrethash).Some?
      && GetLock(c.our.book, a.secrethash).value.secrethash == h
    else
      a.AReceiveUnlock? && Sha256(a.secret) == h
  }

  lemma SendKeepsClaims(c: Channel, a: Action, h: SecretHash)
    requires Step(c, a).Next? && (a.ASendLockedTransfer? || a.ASendUnlock? || a.ASendLockExpired?)
    ensures Step(c, a).channel.partner.book == c.partner.book
    ensures h in c.our.book.onchain && !Unlocks(c, a, true, h) ==> h in Step(c, a).channel.our.book.onchain
  {
  }

  lemma ReceiveKeepsClaims(c: Channel, a: Action, h: SecretHash)
    requires Step(c, a).Next? && (a.AReceiveLockedTransfer? || a.AReceiveUnlock? || a.AReceiveLockExpired?)
    ensures Step(c, a).channel.our.book == c.our.book
    ensures h in c.partner.book.onchain && !Unlocks(c, a, false, h) ==> h in Step(c, a).channel.partner.book.onchain
  {
  }

  lemma StepKeepsClaims(c: Channel, a: Action, ours: bool, h: SecretHash)
    requires Step(c, a).Next? && h in BookOf(c, ours).onchain && !Unlocks(c, a, ours, h)
    ensures h in BookOf(Step(c, a).channel, ours).onchain
  {
    if !TouchesLocks(a) {
      OtherActionsQuiet(c, a);
    } else if a.ASendLockedTransfer? || a.ASendUnlock? || a.ASendLockExpired? {
      SendKeepsClaims(c, a, h);
    } else if a.AReceiveLockedTransfer? || a.AReceiveUnlock? || a.AReceiveLockExpired? {
      ReceiveKeepsClaims(c, a, h);
    }
  }

  lemma {:induction false} ClaimStays(r: Run, ours: bool, h: SecretHash, i: nat, j: nat)
    requires IsRun(r) && i <= j < |r.states| && h in BookOf(r.states[i], ours).onchain
    requires forall k :: i <= k < j ==> !Unlocks(r.states[k], r.actions[k], ours, h)
    ensures h in BookOf(r.states[j], ours).onchain
    decreases j - i
  {
    if i < j {
      ClaimStays(r, ours, h, i, j - 1);
      assert StepAt(r, j - 1);
      StepKeepsClaims(r.states[j - 1], r.actions[j - 1], ours, h);
    }
  }

  /** An expiry message for a lock claimed on-chain changes nothing. */
  lemma ClaimedIsNotExpired(c: Channel, bp: BalanceProof, h: SecretHash, block: nat)
    requires h in c.partner.book.onchain
    ensures Step(c, AReceiveLockExpired(bp, h, block)) == Next(c, [Invalid])
  {
  }

  /**
   A lock whose secret was registered on-chain in time is never dropped by an
   expiry: until it is unlocked it stays claimed, at either end, and every expiry
   message of the partner for it is turned down.
   */
  lemma TimelySecretKeepsLock(r: Run, ours: bool, l: Lock, i: nat, j: nat, bp: BalanceProof, block: nat)
    requires IsRun(r) && i < |r.actions| && i < j < |r.states|
    requires r.actions[i].ARegisterOnchainSecret? && r.actions[i].deleteLock
    requires IsOpen(BookOf(r.states[i], ours), r.actions[i].secrethash, l) && r.actions[i].revealBlock <= l.expiration
    requires forall k :: i < k < j ==> !Unlocks(r.states[k], r.actions[k], ours, r.actions[i].secrethash)
    ensures r.actions[i].secrethash in BookOf(r.states[j], ours).onchain
    ensures !ours ==>
      Step(r.states[j], AReceiveLockExpired(bp, r.actions[i].secrethash, block)) == Next(r.states[j], [Invalid])
  {
    var a := r.actions[i];
    assert StepAt(r, i);
    SecretsReachBothEnds(r.states[i], a.secret, a.secrethash, a.revealBlock, true);
    OnchainSecretClaimsIff(BookOf(r.states[i], ours), a.secret, a.secrethash, a.revealBlock, l);
    ClaimStays(r, ours, a.secrethash, i + 1, j);
    if !ours { ClaimedIsNotExpired(r.states[j], bp, a.secrethash, block); }
  }
}
