/**
 When a channel can be used for a transfer, and what a whole payment between the
 two nodes comes to: the transfer, and then its unlock or its expiry.
 */
module TransferPayments {
  import opened Options
  import opened LockCodec
  import opened ChannelState
  import opened ChannelTransitions
  import opened LockInvariant
  import opened ChannelRuns
  import opened TwoNodes

  /* ---- usability ---- */

  /** The lock timeout, if there is one, is longer than the reveal timeout and not longer than the settlement window. */
  predicate LockTimeoutFits(c: Channel, lockTimeout: Option<int>) {
    match lockTimeout
    case None => true
    case Some(t) => c.revealTimeout < t && t <= c.settleTimeout
  }

  /**
   A channel is usable for a transfer exactly when it is opened, its settlement
   window holds two reveal timeouts, fewer than 160 locks are pending, the balance
   covers the pending locks and the new one, the amounts of the next balance proof
   fit 256 bits, and a given lock timeout is within bounds.
   */
  lemma UsableIff(c: Channel, amount: int, lockTimeout: Option<int>)
    requires LockInv(c.our.book)
    ensures UsableForTransfer(c, amount, lockTimeout) == Usable <==>
      && c.settleTx.None? && c.closeTx.None?
      && 2 * c.revealTimeout <= c.settleTimeout
      && |c.our.book.pending| < 160
      && AmountLocked(c.our.book) + amount <= Balance(c.our, c.partner)
      && Transferred(c.our.book) + AmountLocked(c.our.book) + amount <= UINT256_MAX
      && LockTimeoutFits(c, lockTimeout)
  {
    CurrentIsAmountLocked(c.our.book);
  }

  /* ---- one exchange ---- */

  /** Both nodes have the channel open and nothing is on its way from the first to the second. */
  ghost predicate Ready(s: System) {
    && SystemInv(s) && s.ab == [] && GetStatus(s.a) == Opened && GetStatus(s.b) == Opened
    && s.a.id.channelId <= UINT256_MAX
  }

  /** The first node has moved to the core `core`, the second knows it, and the other direction is untouched. */
  ghost predicate Exchanged(s: System, t: System, core: Core) {
    && CoreOf(t.a.our) == core && CoreOf(t.b.partner) == core
    && t.a.partner == s.a.partner && t.b.our == s.b.our && t.ba == s.ba
    && t.a.our.contractBalance == s.a.our.contractBalance
    && t.b.partner.contractBalance == s.b.partner.contractBalance
    && t.b.partner.book.onchain.Keys <= s.b.partner.book.onchain.Keys
    && NoWithdraws(t.a) && NoWithdraws(t.b)
  }

  /** The state while the only message is on its way. */
  lemma SentState(s: System, a: Action)
    requires Ready(s) && Allowed(s.a, a) && (a.ASendLockedTransfer? || a.ASendUnlock? || a.ASendLockExpired?)
    requires Step(s.a, a).Next? && |Outgoing(Step(s.a, a).events, s.a.our.address)| == 1
    ensures SystemInv(Act(s, a))
    ensures Act(s, a) == System(Step(s.a, a).channel, s.b, [Outgoing(Step(s.a, a).events, s.a.our.address)[0]], s.ba)
  {
    ActKeeps(s, a);
    ActedSent(s, Step(s.a, a));
    assert s.ab + [Outgoing(Step(s.a, a).events, s.a.our.address)[0]]
      == [Outgoing(Step(s.a, a).events, s.a.our.address)[0]];
  }

  /** With an empty queue the receiver knows the sender's core. */
  lemma EmptyQueueAgrees(s: System)
    requires SystemInv(s) && s.ab == []
    ensures CoreOf(s.b.partner) == CoreOf(s.a.our)
  {
  }

  lemma TakenState(t: System, block: nat)
    requires SystemInv(t) && |t.ab| == 1 && GetStatus(t.b) == Opened
    requires t.ab[0].LockExpired? ==> ExpiryDue(t.b, t.ab[0].secrethash, block)
    ensures var o := Step(t.b, Reception(t.ab[0], block));
      o.Next? && Deliver(t, block) == System(t.a, o.channel, [], t.ba)
    ensures SystemInv(Deliver(t, block))
  {
    HeadIsTaken(t, block);
    DeliverKeeps(t, block);
    assert t.ab[1..] == [];
  }

  /** A message that is sent from a ready state, if it is not an expiry too early, is taken. */
  lemma SentIsTaken(s: System, a: Action, block: nat)
    requires Ready(s) && Allowed(s.a, a) && (a.ASendLockedTransfer? || a.ASendUnlock? || a.ASendLockExpired?)
    requires Step(s.a, a).Next? && |Outgoing(Step(s.a, a).events, s.a.our.address)| == 1
    requires var m := Outgoing(Step(s.a, a).events, s.a.our.address)[0];
      m.LockExpired? ==> ExpiryDue(s.b, m.secrethash, block)
    ensures Ready(Deliver(Act(s, a), block))
    ensures Exchanged(s, Deliver(Act(s, a), block), CoreOf(Step(s.a, a).channel.our))
  {
    var t := Act(s, a);
    SentState(s, a);
    SentOnly(s.a, a);
    TakenState(t, block);
    TakenOnly(t.b, t.ab[0], block);
    EmptyQueueAgrees(Deliver(t, block));
  }

  /** Sending changes nothing but this node's end. */
  lemma SentOnly(c: Channel, a: Action)
    requires (a.ASendLockedTransfer? || a.ASendUnlock? || a.ASendLockExpired?) && Step(c, a).Next?
    ensures var d := Step(c, a).channel;
      && GetStatus(d) == GetStatus(c) && d.id == c.id && d.partner == c.partner
      && d.our.contractBalance == c.our.contractBalance
  {
  }

  lemma TakenOnly(c: Channel, m: Message, block: nat)
    requires Step(c, Reception(m, block)).Next?
    ensures var d := Step(c, Reception(m, block)).channel;
      && GetStatus(d) == GetStatus(c) && d.our == c.our && d.partner.contractBalance == c.partner.contractBalance
      && d.partner.book.onchain.Keys <= c.partner.book.onchain.Keys
  {
  }

  /** The core after a transfer with the lock `l`. */
  ghost function Locked(c: Core, l: Lock): Core {
    Core(c.nonce + 1, c.transferred, c.locked + l.amount, c.pending + [Encode(l)], c.locks[l.secrethash := l])
  }

  /** The core after the lock `l` was taken out, `paid` of it transferred. */
  ghost function Cleared(c: Core, l: Lock, paid: int): Core {
    Core(
      c.nonce + 1, c.transferred + paid, c.locked - l.amount, RemoveFirst(c.pending, Encode(l)),
      c.locks - {l.secrethash})
  }

  /** What this node makes sure of before a transfer: the channel is usable, the lock new, a 64-bit nonce left. */
  ghost predicate CanPay(c: Channel, l: Lock) {
    && UsableForTransfer(c, l.amount, None) == Usable
    && !IsLockPending(c.our.book, l.secrethash) && c.our.nonce < UINT64_MAX
  }

  lemma NewHashNewEncoding(b: Book, l: Lock)
    requires LockInv(b) && !IsLockPending(b, l.secrethash)
    ensures Encode(l) !in b.pending
  {
    if Encode(l) in b.pending { ListedLockIsIndexed(b, l); }
  }

  /** The outcome sends one message and leaves this node's end with the core `core`. */
  ghost predicate Sends(c: Channel, o: Outcome, core: Core) {
    o.Next? && |Outgoing(o.events, c.our.address)| == 1 && CoreOf(o.channel.our) == core
  }

  lemma TransferIsSent(c: Channel, l: Lock)
    requires ChannelLockInv(c) && c.id.channelId <= UINT256_MAX && CanPay(c, l)
    ensures Sends(c, DoSendLockedTransfer(c, l.amount, l.expiration, l.secrethash), Locked(CoreOf(c.our), l))
  {
    NewHashNewEncoding(c.our.book, l);
    UsableTransferIsCreated(c, l, None);
    SendTransferFits(c, l.amount, l.expiration, l.secrethash);
  }

  /** From any ready state, a transfer for which the channel is usable is sent and taken. */
  lemma TransferIsTaken(s: System, l: Lock, block: nat)
    requires Ready(s) && CanPay(s.a, l)
    ensures var t := Deliver(Act(s, ASendLockedTransfer(l.amount, l.expiration, l.secrethash)), block);
      Ready(t) && Exchanged(s, t, Locked(CoreOf(s.a.our), l))
  {
    TransferIsSent(s.a, l);
    SentIsTaken(s, ASendLockedTransfer(l.amount, l.expiration, l.secrethash), block);
  }

  /** A lock can leave the channel: it is there, and the next proof fits its bounds. */
  ghost predicate CanClear(c: Channel, l: Lock) {
    && ChannelLockInv(c) && GetStatus(c) == Opened && c.id.channelId <= UINT256_MAX && c.our.nonce < UINT64_MAX
    && Transferred(c.our.book) + AmountLocked(c.our.book) <= UINT256_MAX && GetLock(c.our.book, l.secrethash) == Some(l)
  }

  lemma UnlockGoesOut(c: Channel, secret: Secret, l: Lock, block: nat)
    requires CanClear(c, l) && (l.secrethash in c.our.book.onchain || block < l.expiration)
    ensures DoSendUnlock(c, secret, l.secrethash, block).Next?
  {
    CurrentIsAmountLocked(c.our.book);
    LockIsCounted(c.our.book, l);
  }

  lemma UnlockIsSent(c: Channel, secret: Secret, l: Lock, block: nat)
    requires CanClear(c, l) && (l.secrethash in c.our.book.onchain || block < l.expiration)
    requires Sha256(secret) == l.secrethash
    ensures Sends(c, DoSendUnlock(c, secret, l.secrethash, block), Cleared(CoreOf(c.our), l, l.amount))
  {
    UnlockGoesOut(c, secret, l, block);
    SendUnlockFits(c, secret, l.secrethash, block);
    LookupIsTable(c.our.book, l.secrethash);
  }

  lemma ExpiryGoesOut(c: Channel, l: Lock)
    requires CanClear(c, l)
    ensures DoSendLockExpired(c, l).Next? && |DoSendLockExpired(c, l).events| == 1
    ensures DoSendLockExpired(c, l).events[0].SendLockExpired?
    ensures DoSendLockExpired(c, l).events[0].secrethash == l.secrethash
  {
    CurrentIsAmountLocked(c.our.book);
    LockIsCounted(c.our.book, l);
  }

  lemma ExpiryIsSent(c: Channel, l: Lock)
    requires CanClear(c, l) && l.secrethash !in c.our.book.onchain
    ensures Sends(c, DoSendLockExpired(c, l), Cleared(CoreOf(c.our), l, 0))
  {
    ExpiryGoesOut(c, l);
    LockIsCounted(c.our.book, l);
    SendExpiredFits(c, l);
    LookupIsTable(c.our.book, l.secrethash);
  }

  lemma ReadyCanClear(s: System, l: Lock)
    requires Ready(s) && GetLock(s.a.our.book, l.secrethash) == Some(l) && s.a.our.nonce < UINT64_MAX
    ensures CanClear(s.a, l) && GetLock(s.b.partner.book, l.secrethash) == Some(l)
  {
    EmptyQueueAgrees(s);
    LookupIsTable(s.a.our.book, l.secrethash);
    LookupIsTable(s.b.partner.book, l.secrethash);
  }

  /** From any ready state, a lock that is not expired, or claimed on-chain, is unlocked. */
  lemma UnlockIsTaken(s: System, secret: Secret, l: Lock, sent: nat, block: nat)
    requires Ready(s) && GetLock(s.a.our.book, l.secrethash) == Some(l) && Sha256(secret) == l.secrethash
    requires (l.secrethash in s.a.our.book.onchain || sent < l.expiration) && s.a.our.nonce < UINT64_MAX
    ensures var t := Deliver(Act(s, ASendUnlock(secret, l.secrethash, sent)), block);
      Ready(t) && Exchanged(s, t, Cleared(CoreOf(s.a.our), l, l.amount))
  {
    ReadyCanClear(s, l);
    UnlockIsSent(s.a, secret, l, sent);
    UnlockMessage(s.a, secret, l.secrethash, sent);
    SentIsTaken(s, ASendUnlock(secret, l.secrethash, sent), block);
  }

  lemma UnlockMessage(c: Channel, secret: Secret, h: SecretHash, block: nat)
    requires DoSendUnlock(c, secret, h, block).Next?
    ensures var q := Outgoing(DoSendUnlock(c, secret, h, block).events, c.our.address); |q| == 1 && q[0].Unlock?
  {
  }

  lemma ExpiryMessage(c: Channel, l: Lock)
    requires CanClear(c, l)
    ensures DoSendLockExpired(c, l).Next?
    ensures var q := Outgoing(DoSendLockExpired(c, l).events, c.our.address);
      |q| == 1 && q[0].LockExpired? && q[0].secrethash == l.secrethash
  {
    ExpiryGoesOut(c, l);
  }

  /** From any ready state, a lock that nobody claimed is taken back from five blocks after its expiration. */
  lemma ExpiryIsTakenBack(s: System, l: Lock, block: nat)
    requires Ready(s) && GetLock(s.a.our.book, l.secrethash) == Some(l) && s.a.our.nonce < UINT64_MAX
    requires l.secrethash !in s.a.our.book.onchain
    requires l.secrethash !in s.b.partner.book.onchain && l.secrethash !in s.b.our.book.onchain
    requires block >= l.expiration + 5
    ensures var t := Deliver(Act(s, ASendLockExpired(l)), block);
      Ready(t) && Exchanged(s, t, Cleared(CoreOf(s.a.our), l, 0))
  {
    ReadyCanClear(s, l);
    ExpiryIsSent(s.a, l);
    ExpiryMessage(s.a, l);
    SentIsTaken(s, ASendLockExpired(l), block);
  }

  /* ---- whole payments ---- */

  lemma {:induction false} RemoveAppended<T>(s: seq<T>, x: T)
    requires x !in s
    ensures RemoveFirst(s + [x], x) == s
    decreases |s|
  {
    if s == [] {
      assert (s + [x])[1..] == [];
    } else {
      assert (s + [x])[1..] == s[1..] + [x];
      RemoveAppended(s[1..], x);
    }
  }

  /** After the exchange the first node has `paid` less and the second `paid` more, in the books of both. */
  ghost predicate Moved(s: System, t: System, paid: int) {
    && Balance(t.a.our, t.a.partner) == Balance(s.a.our, s.a.partner) - paid
    && Balance(t.b.partner, t.b.our) == Balance(s.b.partner, s.b.our) - paid
    && Balance(t.a.partner, t.a.our) == Balance(s.a.partner, s.a.our) + paid
    && Balance(t.b.our, t.b.partner) == Balance(s.b.our, s.b.partner) + paid
  }

  lemma ExchangeMoves(s: System, t: System, core: Core, paid: int)
    requires NoWithdraws(s.a) && NoWithdraws(s.b) && CoreOf(s.b.partner) == CoreOf(s.a.our) && Exchanged(s, t, core)
    requires core.transferred == CoreOf(s.a.our).transferred + paid
    ensures Moved(s, t, paid)
  {
    TransferredOf(s.a.our);
    TransferredOf(s.b.partner);
    TransferredOf(t.a.our);
    TransferredOf(t.b.partner);
  }

  lemma TransferredOf(e: End)
    ensures CoreOf(e).transferred == Transferred(e.book)
  {
  }

  /** Locking and clearing again leaves pending list and locks as they were. */
  lemma ClearedLocked(c: Core, l: Lock, paid: int)
    requires Encode(l) !in c.pending && l.secrethash !in c.locks
    ensures Cleared(Locked(c, l), l, paid) == c.(nonce := c.nonce + 2, transferred := c.transferred + paid)
  {
    RemoveAppended(c.pending, Encode(l));
    assert c.locks[l.secrethash := l] - {l.secrethash} == c.locks;
  }

  lemma CoreWithoutLock(e: End, l: Lock)
    requires LockInv(e.book) && !IsLockPending(e.book, l.secrethash)
    ensures Encode(l) !in CoreOf(e).pending && l.secrethash !in CoreOf(e).locks
  {
    NewHashNewEncoding(e.book, l);
    LookupIsTable(e.book, l.secrethash);
  }

  lemma CoreLockedAndCleared(e: End, l: Lock, paid: int)
    requires LockInv(e.book) && !IsLockPending(e.book, l.secrethash)
    ensures var core := CoreOf(e);
      Cleared(Locked(core, l), l, paid) ==
        core.(nonce := core.nonce + 2, transferred := core.transferred + paid)
  {
    CoreWithoutLock(e, l);
    ClearedLocked(CoreOf(e), l, paid);
  }

  lemma MovedTwice(s: System, t: System, u: System, paid: int)
    requires Moved(s, t, 0) && Moved(t, u, paid)
    ensures Moved(s, u, paid)
  {
  }

  /** Only the nonce and what is transferred have changed, by two and by `paid`, and so have the balances of both. */
  ghost predicate PaidOut(s: System, u: System, paid: int) {
    && Moved(s, u, paid)
    && CoreOf(u.a.our) ==
       CoreOf(s.a.our).(nonce := CoreOf(s.a.our).nonce + 2, transferred := CoreOf(s.a.our).transferred + paid)
  }

  lemma ReadyMoves(s: System, t: System, core: Core, paid: int)
    requires Ready(s) && Exchanged(s, t, core) && core.transferred == CoreOf(s.a.our).transferred + paid
    ensures Moved(s, t, paid)
  {
    EmptyQueueAgrees(s);
    ExchangeMoves(s, t, core, paid);
  }

  lemma ExchangesMove(s: System, t: System, u: System, l: Lock, paid: int)
    requires Ready(s) && Ready(t)
    requires Exchanged(s, t, Locked(CoreOf(s.a.our), l)) && Exchanged(t, u, Cleared(CoreOf(t.a.our), l, paid))
    ensures Moved(s, u, paid)
  {
    ReadyMoves(s, t, Locked(CoreOf(s.a.our), l), 0);
    ReadyMoves(t, u, Cleared(CoreOf(t.a.our), l, paid), paid);
    MovedTwice(s, t, u, paid);
  }

  lemma ReadyHasLocks(s: System)
    requires Ready(s)
    ensures LockInv(s.a.our.book)
  {
  }

  lemma ExchangesPay(s: System, t: System, u: System, l: Lock, paid: int)
    requires LockInv(s.a.our.book) && !IsLockPending(s.a.our.book, l.secrethash) && Moved(s, u, paid)
    requires CoreOf(t.a.our) == Locked(CoreOf(s.a.our), l) && CoreOf(u.a.our) == Cleared(CoreOf(t.a.our), l, paid)
    ensures PaidOut(s, u, paid)
  {
    CoreLockedAndCleared(s.a.our, l, paid);
  }

  /** What two exchanges leave that lock `l` and then clear it, with `paid` of it transferred. */
  lemma TwoExchanges(s: System, t: System, u: System, l: Lock, paid: int)
    requires Ready(s) && Ready(t) && !IsLockPending(s.a.our.book, l.secrethash)
    requires Exchanged(s, t, Locked(CoreOf(s.a.our), l)) && Exchanged(t, u, Cleared(CoreOf(t.a.our), l, paid))
    ensures PaidOut(s, u, paid)
  {
    ExchangesMove(s, t, u, l, paid);
    ReadyHasLocks(s);
    ExchangesPay(s, t, u, l, paid);
  }

  /**
   From any ready state, a payment for which the channel is usable goes through: if
   the secret comes before the lock expires, exactly the amount moves from one node
   to the other in the books of both, and no lock is left of it.  `t` is the state
   after the transfer and `u` the one after the unlock.
   */
  lemma PaymentCompletes(s: System, t: System, u: System, l: Lock, secret: Secret, sent: nat, block: nat, later: nat)
    requires Ready(s) && CanPay(s.a, l) && s.a.our.nonce + 1 < UINT64_MAX
    requires Sha256(secret) == l.secrethash && sent < l.expiration
    requires t == Deliver(Act(s, ASendLockedTransfer(l.amount, l.expiration, l.secrethash)), block)
    requires u == Deliver(Act(t, ASendUnlock(secret, l.secrethash, sent)), later)
    ensures Ready(u) && PaidOut(s, u, l.amount)
  {
    TransferIsTaken(s, l, block);
    LockIsThere(t.a.our, CoreOf(s.a.our), l);
    UnlockIsTaken(t, secret, l, sent, later);
    TwoExchanges(s, t, u, l, l.amount);
  }

  lemma LockIsThere(e: End, before: Core, l: Lock)
    requires CoreOf(e) == Locked(before, l)
    ensures GetLock(e.book, l.secrethash) == Some(l) && e.nonce == before.nonce + 1
  {
    LookupIsTable(e.book, l.secrethash);
  }

  lemma LookupIsTable(b: Book, h: SecretHash)
    ensures h in LockTable(b) <==> GetLock(b, h).Some?
    ensures h in LockTable(b) ==> GetLock(b, h) == Some(LockTable(b)[h])
  {
  }

  lemma TransferIsNotClaimed(s: System, t: System, l: Lock, block: nat)
    requires Ready(s) && CanPay(s.a, l)
    requires t == Deliver(Act(s, ASendLockedTransfer(l.amount, l.expiration, l.secrethash)), block)
    ensures l.secrethash !in t.a.our.book.onchain
  {
    DeliveryKeepsSender(Act(s, ASendLockedTransfer(l.amount, l.expiration, l.secrethash)), block);
    SentLockIsNotClaimed(s.a, l);
  }

  /** A payment whose secret does not come is taken back: nothing has moved, and no lock is left of it. */
  lemma PaymentIsTakenBack(s: System, t: System, u: System, l: Lock, block: nat, later: nat)
    requires Ready(s) && CanPay(s.a, l) && s.a.our.nonce + 1 < UINT64_MAX && later >= l.expiration + 5
    requires l.secrethash !in s.b.partner.book.onchain && l.secrethash !in s.b.our.book.onchain
    requires t == Deliver(Act(s, ASendLockedTransfer(l.amount, l.expiration, l.secrethash)), block)
    requires u == Deliver(Act(t, ASendLockExpired(l)), later)
    ensures Ready(u) && PaidOut(s, u, 0)
  {
    TransferIsTaken(s, l, block);
    TransferIsNotClaimed(s, t, l, block);
    LockIsThere(t.a.our, CoreOf(s.a.our), l);
    ExpiryIsTakenBack(t, l, later);
    TwoExchanges(s, t, u, l, 0);
  }

  lemma DeliveryKeepsSender(s: System, block: nat)
    ensures Deliver(s, block).a == s.a
  {
  }

  lemma SentLockIsNotClaimed(c: Channel, l: Lock)
    requires CanPay(c, l)
    ensures var o := Step(c, ASendLockedTransfer(l.amount, l.expiration, l.secrethash));
      o.Next? ==> l.secrethash !in o.channel.our.book.onchain
  {
  }

  /* ---- an ordinary payment ---- */

  /** A new channel with a settlement window of 500 blocks and a reveal timeout of 50, to which 100 were deposited. */
  ghost predicate Ordinary(s: System) {
    && InitialSystem(s) && GetStatus(s.a) == Opened && GetStatus(s.b) == Opened && s.a.id.channelId <= UINT256_MAX
    && s.a.settleTimeout == 500 && s.a.revealTimeout == 50 && s.a.our.contractBalance == 100
  }

  lemma OrdinaryIsReady(s: System, l: Lock)
    requires Ordinary(s) && l.amount == 10
    ensures Ready(s) && CanPay(s.a, l) && s.a.our.nonce == 0
  {
    InitialSystemInv(s);
    EmptyListNoLocks(s.a.our.book);
    UsableIff(s.a, l.amount, None);
  }

  /** A first payment of 10 leaves 90. */
  lemma OrdinaryPayment(s: System, t: System, u: System, l: Lock, secret: Secret, sent: nat, block: nat)
    requires Ordinary(s) && l.amount == 10 && Sha256(secret) == l.secrethash && sent < l.expiration
    requires t == Deliver(Act(s, ASendLockedTransfer(l.amount, l.expiration, l.secrethash)), block)
    requires u == Deliver(Act(t, ASendUnlock(secret, l.secrethash, sent)), block)
    ensures Balance(u.a.our, u.a.partner) == 90 && Balance(u.b.our, u.b.partner) == s.b.our.contractBalance + 10
  {
    OrdinaryIsReady(s, l);
    PaymentCompletes(s, t, u, l, secret, sent, block, block);
    OrdinaryBalances(s);
  }

  lemma OrdinaryBalances(s: System)
    requires Ordinary(s)
    ensures Balance(s.a.our, s.a.partner) == 100 && Balance(s.b.our, s.b.partner) == s.b.our.contractBalance
  {
  }

  /** The transfer is a run of the two nodes, so these states are reachable. */
  lemma OrdinaryTransferIsRun(s: System, s1: System, s2: System, l: Lock, block: nat)
    requires Ordinary(s) && l.amount == 10
    requires s1 == Act(s, ASendLockedTransfer(l.amount, l.expiration, l.secrethash)) && s2 == Deliver(s1, block)
    ensures SystemRun([s, s1, s2], [Acts(true, ASendLockedTransfer(l.amount, l.expiration, l.secrethash)),
                                    Delivers(true, block)])
    ensures CoreOf(s2.b.partner).locked == 10
  {
    OrdinaryMove(s, s1, l);
    assert AllowedMove(s1, Delivers(true, block)) && s2 == Advance(s1, Delivers(true, block));
    OrdinaryTransferIsTaken(s, s2, l, block);
  }

  lemma OrdinaryMove(s: System, s1: System, l: Lock)
    requires Ordinary(s) && l.amount == 10
    requires s1 == Act(s, ASendLockedTransfer(l.amount, l.expiration, l.secrethash))
    ensures var m := Acts(true, ASendLockedTransfer(l.amount, l.expiration, l.secrethash));
      AllowedMove(s, m) && s1 == Advance(s, m)
  {
    OrdinaryIsReady(s, l);
  }

  lemma OrdinaryTransferIsTaken(s: System, t: System, l: Lock, block: nat)
    requires Ordinary(s) && l.amount == 10
    requires t == Deliver(Act(s, ASendLockedTransfer(l.amount, l.expiration, l.secrethash)), block)
    ensures CoreOf(t.b.partner).locked == 10
  {
    OrdinaryIsReady(s, l);
    EmptyListNoLocks(s.a.our.book);
    TransferIsTaken(s, l, block);
  }
}
