/**
 The two nodes of a channel, joined by a first-in first-out queue in each
 direction.  A message that the receiver rejects stays at the head of its queue
 and is delivered again.  The channel may be closed and settled at any time by
 either side; deposits are fixed and there are no withdraws.
 */
module TwoNodes {
  import opened Options
  import opened LockCodec
  import opened ChannelState
  import opened ChannelTransitions
  import opened LockInvariant
  import opened ChannelRuns

  datatype Message =
    | LockedTransfer(bp: BalanceProof, lock: Lock)
    | Unlock(bp: BalanceProof, secret: Secret)
    | LockExpired(bp: BalanceProof, secrethash: SecretHash)

  /** `ab` holds what node `a` has sent and node `b` has not processed, oldest first. */
  datatype System = System(a: Channel, b: Channel, ab: seq<Message>, ba: seq<Message>)

  /* ---- what a queue of messages stands for ---- */

  /** The part of an end that both nodes have to agree on. */
  datatype Core = Core(
    nonce: nat,
    transferred: int,
    locked: int,
    pending: seq<EncodedLock>,
    locks: map<SecretHash, Lock>)

  ghost function LockTable(b: Book): map<SecretHash, Lock> {
    map h | h in b.locked.Keys + b.unlocked.Keys + b.onchain.Keys :: GetLock(b, h).value
  }

  ghost function CoreOf(e: End): Core {
    Core(e.nonce, Transferred(e.book), AmountLocked(e.book), e.book.pending, LockTable(e.book))
  }

  function HashOf(m: Message): SecretHash {
    match m
    case LockedTransfer(_, l) => l.secrethash
    case Unlock(_, secret) => Sha256(secret)
    case LockExpired(_, h) => h
  }

  /** The pending list after a message. */
  function PendingAfter(c: Core, m: Message): seq<EncodedLock> {
    if m.LockedTransfer? then c.pending + [Encode(m.lock)]
    else if HashOf(m) in c.locks then RemoveFirst(c.pending, Encode(c.locks[HashOf(m)]))
    else c.pending
  }

  function Apply(c: Core, m: Message): Core {
    var locks := if m.LockedTransfer? then c.locks[m.lock.secrethash := m.lock] else c.locks - {HashOf(m)};
    Core(m.bp.nonce, m.bp.transferred, m.bp.locked, PendingAfter(c, m), locks)
  }

  function ApplyAll(c: Core, q: seq<Message>): Core
    decreases |q|
  {
    if q == [] then c else ApplyAll(Apply(c, q[0]), q[1..])
  }

  /** The channel and the signing address a queue belongs to; `budget` bounds what may be transferred or locked. */
  datatype Link = Link(id: CanonicalId, sender: Address, budget: int)

  /** `m` is a message that an end with core `c` can send next. */
  predicate Fits(c: Core, m: Message, k: Link) {
    && m.bp.nonce == c.nonce + 1 && m.bp.id == k.id && m.bp.signer == Some(k.sender)
    && m.bp.transferred + m.bp.locked <= UINT256_MAX
    && m.bp.locksroot == Locksroot(PendingAfter(c, m))
    && match m
       case LockedTransfer(bp, l) =>
         && Encode(l) !in c.pending && l.secrethash !in c.locks
         && |c.pending| < MAXIMUM_PENDING_TRANSFERS
         && bp.transferred == c.transferred && bp.locked == c.locked + l.amount
         && c.transferred + c.locked + l.amount <= k.budget
       case Unlock(bp, secret) =>
         && HashOf(m) in c.locks
         && bp.transferred == c.transferred + c.locks[HashOf(m)].amount
         && bp.locked == c.locked - c.locks[HashOf(m)].amount
       case LockExpired(bp, h) =>
         && h in c.locks
         && bp.transferred == c.transferred && bp.locked == c.locked - c.locks[h].amount
  }

  predicate AllFit(c: Core, q: seq<Message>, k: Link)
    decreases |q|
  {
    q != [] ==> Fits(c, q[0], k) && AllFit(Apply(c, q[0]), q[1..], k)
  }

  lemma {:induction false} AppendFits(c: Core, q: seq<Message>, m: Message, k: Link)
    requires AllFit(c, q, k) && Fits(ApplyAll(c, q), m, k)
    ensures AllFit(c, q + [m], k) && ApplyAll(c, q + [m]) == Apply(ApplyAll(c, q), m)
    decreases |q|
  {
    if q == [] {
      assert q + [m] == [m];
    } else {
      assert (q + [m])[0] == q[0] && (q + [m])[1..] == q[1..] + [m];
      AppendFits(Apply(c, q[0]), q[1..], m, k);
    }
  }

  lemma {:induction false} LargerBudgetFits(c: Core, q: seq<Message>, k: Link, budget: int)
    requires AllFit(c, q, k) && budget >= k.budget
    ensures AllFit(c, q, k.(budget := budget))
    decreases |q|
  {
    if q != [] { LargerBudgetFits(Apply(c, q[0]), q[1..], k, budget); }
  }

  lemma {:induction false} TransferredAlongQueue(c: Core, q: seq<Message>, k: Link)
    requires AllFit(c, q, k)
    ensures ApplyAll(c, q).transferred >= c.transferred
    decreases |q|
  {
    if q != [] { TransferredAlongQueue(Apply(c, q[0]), q[1..], k); }
  }

  /* ---- steps ---- */

  function Sign(bp: BalanceProof, signer: Address): BalanceProof { bp.(signer := Some(signer)) }

  /** The messages of a step, signed by the sender. */
  function Outgoing(events: seq<Event>, signer: Address): seq<Message> {
    if |events| != 1 then [] else
    match events[0]
    case SendLockedTransfer(bp, l) => [LockedTransfer(Sign(bp, signer), l)]
    case SendUnlock(bp, secret) => [Unlock(Sign(bp, signer), secret)]
    case SendLockExpired(bp, h) => [LockExpired(Sign(bp, signer), h)]
    case _ => []
  }

  function Reception(m: Message, block: nat): Action {
    match m
    case LockedTransfer(bp, l) => AReceiveLockedTransfer(bp, l, true)
    case Unlock(bp, secret) => AReceiveUnlock(bp, secret)
    case LockExpired(bp, h) => AReceiveLockExpired(bp, h, block)
  }

  /** What the callers in the initiator and mediator logic make sure of before they act. */
  ghost predicate Allowed(c: Channel, a: Action) {
    match a
    case ASendLockedTransfer(amount, _, h) =>
      UsableForTransfer(c, amount, None) == Usable && !IsLockPending(c.our.book, h)
    case ASendUnlock(secret, h, _) => Sha256(secret) == h
    case ASendLockExpired(l) => l.secrethash !in c.our.book.onchain
    case ARegisterSecret(_, _) => true
    case ARegisterOnchainSecret(_, _, _, del) => del
    case _ => IsLifecycle(a)
  }

  /** Blocks, the close and settlement of the channel, and a new reveal timeout. */
  predicate IsLifecycle(a: Action) {
    || a.ABlock? || a.AClose? || a.AClosed? || a.AUpdatedTransfer? || a.ASettled? || a.ABatchUnlock?
    || a.ASetRevealTimeout?
  }

  /** Nothing happens when the operation raises. */
  ghost function Acted(s: System, o: Outcome): System {
    if o.Next? then s.(a := o.channel, ab := s.ab + Outgoing(o.events, s.a.our.address)) else s
  }

  /** Node `a` acts. */
  ghost function Act(s: System, action: Action): System { Acted(s, Step(s.a, action)) }

  ghost predicate Accepted(o: Outcome) { o.Next? && o.events == [SendProcessed] }

  /** Node `b` handles the oldest message of `a`. */
  ghost function Deliver(s: System, block: nat): System {
    if s.ab == [] then s else
    var o := Step(s.b, Reception(s.ab[0], block));
    if Accepted(o) then s.(b := o.channel, ab := s.ab[1..]) else s
  }

  /** The same system seen from the other node. */
  ghost function Flip(s: System): System { System(s.b, s.a, s.ba, s.ab) }

  /* ---- the lock table ---- */

  lemma TableAdd(b: Book, bp: BalanceProof, l: Lock)
    requires !IsLockPending(b, l.secrethash)
    ensures LockTable(AddLock(b, bp, l)) == LockTable(b)[l.secrethash := l]
  {
    var d := AddLock(b, bp, l);
    assert forall h :: h != l.secrethash ==> GetLock(d, h) == GetLock(b, h);
  }

  lemma LookupDel(b: Book, d: Book, h: SecretHash, k: SecretHash)
    requires d.locked == b.locked - {h} && d.unlocked == b.unlocked - {h} && d.onchain == b.onchain - {h}
    ensures GetLock(d, k) == if k == h then None else GetLock(b, k)
  {
  }

  lemma TableDel(b: Book, d: Book, h: SecretHash)
    requires d.locked == b.locked - {h} && d.unlocked == b.unlocked - {h} && d.onchain == b.onchain - {h}
    ensures LockTable(d) == LockTable(b) - {h}
  {
    forall k ensures GetLock(d, k) == if k == h then None else GetLock(b, k) { LookupDel(b, d, h, k); }
    SameLookups(d, LockTable(b) - {h});
  }

  /** A table is the lock table of a book when every lookup agrees. */
  lemma SameLookups(b: Book, t: map<SecretHash, Lock>)
    requires forall k :: GetLock(b, k) == if k in t then Some(t[k]) else None
    ensures LockTable(b) == t
  {
    forall k ensures k in LockTable(b) <==> k in t { assert GetLock(b, k).Some? <==> k in t; }
  }

  lemma TableMove(b: Book, d: Book)
    requires forall k :: GetLock(d, k) == GetLock(b, k)
    ensures LockTable(d) == LockTable(b)
  {
    forall k ensures k in LockTable(d) <==> k in LockTable(b) {
      assert GetLock(d, k) == GetLock(b, k);
    }
  }

  /* ---- sending ---- */

  ghost function LinkOf(c: Channel): Link {
    Link(c.id, c.our.address, c.our.contractBalance - TotalWithdraw(c.our) + Transferred(c.partner.book))
  }

  ghost predicate NoWithdraws(c: Channel) {
    && c.our.withdraws == [] && c.our.onchainWithdraw == 0
    && c.partner.withdraws == [] && c.partner.onchainWithdraw == 0
  }

  /** Only the books and nonces of the ends differ. */
  ghost predicate OnlyBooks(c: Channel, d: Channel) {
    && d == c.(our := d.our, partner := d.partner)
    && d.our == c.our.(book := d.our.book, nonce := d.our.nonce)
    && d.partner == c.partner.(book := d.partner.book, nonce := d.partner.nonce)
  }

  /** What sending a message means for the sender's end. */
  ghost predicate SendsNext(c: Channel, d: Channel, m: Message) {
    Fits(CoreOf(c.our), m, LinkOf(c)) && CoreOf(d.our) == Apply(CoreOf(c.our), m)
  }

  lemma SendTransferFits(c: Channel, amount: int, expiration: int, h: SecretHash)
    requires ChannelLockInv(c) && Allowed(c, ASendLockedTransfer(amount, expiration, h))
    requires DoSendLockedTransfer(c, amount, expiration, h).Next?
    ensures var o := DoSendLockedTransfer(c, amount, expiration, h);
      && |Outgoing(o.events, c.our.address)| == 1
      && SendsNext(c, o.channel, Outgoing(o.events, c.our.address)[0])
  {
    var t := CreateLockedTransfer(c, amount, expiration, h).value;
    CurrentIsAmountLocked(c.our.book);
    AddFreshLock(c.our.book, t.bp, t.lock);
    TableAdd(c.our.book, t.bp, t.lock);
  }

  /** The end after a proof that takes `l` out. */
  ghost function WithoutLock(e: End, bp: BalanceProof, l: Lock): End {
    WithBook(e, bp, DelLock(WithProof(e.book, bp, RemoveFirst(e.book.pending, Encode(l))), l.secrethash))
  }

  /** For a lock that is not claimed on-chain, dropping it is the same as unlocking it. */
  lemma DropIsDelete(b: Book, h: SecretHash)
    requires h !in b.onchain
    ensures DelUnclaimed(b, h) == DelLock(b, h)
  {
    assert b.onchain - {h} == b.onchain;
  }

  lemma RemovalCore(e: End, bp: BalanceProof, l: Lock, m: Message)
    requires LockInv(e.book) && GetLock(e.book, l.secrethash) == Some(l) && ProofRemoves(e.book, bp, l)
    requires !m.LockedTransfer? && HashOf(m) == l.secrethash
    requires m.bp.nonce == bp.nonce && m.bp.transferred == bp.transferred && m.bp.locked == bp.locked
    ensures CoreOf(WithoutLock(e, bp, l)) == Apply(CoreOf(e), m)
    ensures l.secrethash in CoreOf(e).locks && CoreOf(e).locks[l.secrethash] == l
    ensures PendingAfter(CoreOf(e), m) == RemoveFirst(e.book.pending, Encode(l))
  {
    RemoveLockKeeps(e.book, bp, l);
    TableDel(e.book, WithoutLock(e, bp, l).book, l.secrethash);
  }

  lemma SendUnlockFits(c: Channel, secret: Secret, h: SecretHash, block: nat)
    requires ChannelLockInv(c) && Sha256(secret) == h && DoSendUnlock(c, secret, h, block).Next?
    requires Transferred(c.our.book) + AmountLocked(c.our.book) <= UINT256_MAX
    ensures var o := DoSendUnlock(c, secret, h, block);
      && |Outgoing(o.events, c.our.address)| == 1
      && SendsNext(c, o.channel, Outgoing(o.events, c.our.address)[0])
  {
    var o := DoSendUnlock(c, secret, h, block);
    RemovalCore(c.our, o.events[0].bp, GetLock(c.our.book, h).value, Outgoing(o.events, c.our.address)[0]);
  }

  lemma SendExpiredFits(c: Channel, l: Lock)
    requires ChannelLockInv(c) && Allowed(c, ASendLockExpired(l)) && DoSendLockExpired(c, l).Next?
    requires Transferred(c.our.book) + AmountLocked(c.our.book) <= UINT256_MAX
    ensures var o := DoSendLockExpired(c, l);
      if Encode(l) in c.our.book.pending then
        && |Outgoing(o.events, c.our.address)| == 1
        && SendsNext(c, o.channel, Outgoing(o.events, c.our.address)[0])
      else o == Next(c, [])
  {
    if Encode(l) in c.our.book.pending {
      var o := DoSendLockExpired(c, l);
      ListedLockIsIndexed(c.our.book, l);
      DropIsDelete(WithProof(c.our.book, o.events[0].bp, RemoveFirst(c.our.book.pending, Encode(l))), l.secrethash);
      RemovalCore(c.our, o.events[0].bp, l, Outgoing(o.events, c.our.address)[0]);
    }
  }

  /* ---- receiving ---- */

  /** A receiver `c` whose view of the sender is `c.partner`, on the channel of link `k`. */
  ghost predicate Receives(c: Channel, k: Link) {
    && LockInv(c.partner.book) && k.id == c.id && k.sender == c.partner.address
    && k.budget <= c.partner.contractBalance - TotalWithdraw(c.partner) + Transferred(c.our.book)
  }

  ghost predicate TakesOver(c: Channel, o: Outcome, m: Message) {
    Accepted(o) && CoreOf(o.channel.partner) == Apply(CoreOf(c.partner), m)
  }

  lemma ReceiveTransferAccepted(c: Channel, bp: BalanceProof, l: Lock, k: Link)
    requires GetStatus(c) == Opened && Receives(c, k) && Fits(CoreOf(c.partner), LockedTransfer(bp, l), k)
    ensures TakesOver(c, DoReceiveLockedTransfer(c, bp, l, true), LockedTransfer(bp, l))
  {
    CurrentIsAmountLocked(c.partner.book);
    assert !IsLockPending(c.partner.book, l.secrethash);
    assert CheckLockedTransfer(c, c.partner, c.our, bp, l).Some?;
    AddFreshLock(c.partner.book, bp, l);
    TableAdd(c.partner.book, bp, l);
  }

  /**
   What the sender checks is enough for the receiver: when the channel is usable
   for a new lock, the transfer that is sent is accepted by a node that knows the
   sender's state, a deposit that is not smaller and withdraws that are not
   larger, also after it has itself transferred more.
   */
  lemma UsableTransferIsAccepted(a: Channel, b: Channel, l: Lock, lockTimeout: Option<int>)
    requires ChannelLockInv(a) && LockInv(b.partner.book) && CoreOf(b.partner) == CoreOf(a.our)
    requires b.id == a.id && b.partner.address == a.our.address && GetStatus(b) == Opened
    requires a.our.contractBalance <= b.partner.contractBalance && TotalWithdraw(b.partner) <= TotalWithdraw(a.our)
    requires Transferred(a.partner.book) <= Transferred(b.our.book)
    requires UsableForTransfer(a, l.amount, lockTimeout) == Usable && !IsLockPending(a.our.book, l.secrethash)
    requires DoSendLockedTransfer(a, l.amount, l.expiration, l.secrethash).Next?
    ensures var bp := Sign(DoSendLockedTransfer(a, l.amount, l.expiration, l.secrethash).events[0].bp, a.our.address);
      TakesOver(b, DoReceiveLockedTransfer(b, bp, l, true), LockedTransfer(bp, l))
  {
    SendTransferFits(a, l.amount, l.expiration, l.secrethash);
    var bp := Sign(DoSendLockedTransfer(a, l.amount, l.expiration, l.secrethash).events[0].bp, a.our.address);
    ReceiveTransferAccepted(b, bp, l, LinkOf(a));
  }

  /** A fitting unlock or expiry names a lock the receiver has, and takes out exactly that one. */
  lemma FittingRemoval(e: End, m: Message, k: Link) returns (l: Lock)
    requires LockInv(e.book) && Fits(CoreOf(e), m, k) && !m.LockedTransfer?
    ensures GetLock(e.book, HashOf(m)) == Some(l) && l.secrethash == HashOf(m)
    ensures LocksWithout(e.book.pending, Encode(l)) == Some(RemoveFirst(e.book.pending, Encode(l)))
    ensures ProofRemoves(e.book, m.bp, l)
    ensures m.bp.transferred == Transferred(e.book) + (if m.Unlock? then l.amount else 0)
  {
    assert IsLockPending(e.book, HashOf(m));
    l := GetLock(e.book, HashOf(m)).value;
  }

  lemma ReceiveUnlockAccepted(c: Channel, bp: BalanceProof, secret: Secret, k: Link)
    requires GetStatus(c) == Opened && Receives(c, k) && Fits(CoreOf(c.partner), Unlock(bp, secret), k)
    ensures TakesOver(c, DoReceiveUnlock(c, bp, Sha256(secret)), Unlock(bp, secret))
  {
    var l := FittingRemoval(c.partner, Unlock(bp, secret), k);
    CurrentIsAmountLocked(c.partner.book);
    RemovalCore(c.partner, bp, l, Unlock(bp, secret));
    assert DoReceiveUnlock(c, bp, Sha256(secret)).channel.partner == WithoutLock(c.partner, bp, l);
  }

  /** When a receiver takes an expiry: enough blocks have passed and the secret is not on-chain for it. */
  ghost predicate ExpiryDue(c: Channel, h: SecretHash, block: nat) {
    && IsLockPending(c.partner.book, h)
    && h !in c.partner.book.onchain && h !in c.our.book.onchain
    && block >= ReceiverThreshold(GetLock(c.partner.book, h).value.expiration)
  }

  lemma ReceiveExpiredAccepted(c: Channel, bp: BalanceProof, h: SecretHash, block: nat, k: Link)
    requires GetStatus(c) == Opened && ExpiryDue(c, h, block)
    requires Receives(c, k) && Fits(CoreOf(c.partner), LockExpired(bp, h), k)
    ensures TakesOver(c, DoReceiveLockExpired(c, bp, h, block), LockExpired(bp, h))
  {
    var l := FittingRemoval(c.partner, LockExpired(bp, h), k);
    CurrentIsAmountLocked(c.partner.book);
    RemovalCore(c.partner, bp, l, LockExpired(bp, h));
    DropIsDelete(WithProof(c.partner.book, bp, RemoveFirst(c.partner.book.pending, Encode(l))), h);
    assert DoReceiveLockExpired(c, bp, h, block).channel.partner == WithoutLock(c.partner, bp, l);
  }

  lemma EarlyExpiryRejected(c: Channel, bp: BalanceProof, h: SecretHash, block: nat)
    requires LockInv(c.partner.book) && !ExpiryDue(c, h, block)
    ensures !Accepted(DoReceiveLockExpired(c, bp, h, block))
  {
  }

  /* ---- the system invariant ---- */

  /** The queue takes the core `rc` that the receiver knows exactly to the core `sc` of the sender. */
  predicate Bridges(rc: Core, q: seq<Message>, sc: Core, k: Link) {
    AllFit(rc, q, k) && ApplyAll(rc, q) == sc && sc.transferred + sc.locked <= UINT256_MAX
  }

  lemma SendBridges(rc: Core, q: seq<Message>, sc: Core, m: Message, k: Link)
    requires Bridges(rc, q, sc, k) && Fits(sc, m, k)
    ensures Bridges(rc, q + [m], Apply(sc, m), k)
  {
    AppendFits(rc, q, m, k);
  }

  ghost predicate InStep(sender: Channel, receiver: Channel, q: seq<Message>) {
    Bridges(CoreOf(receiver.partner), q, CoreOf(sender.our), LinkOf(sender))
  }

  ghost predicate Mirrored(a: Channel, b: Channel) {
    && a.id == b.id
    && a.our.address == b.partner.address && a.partner.address == b.our.address
    && a.our.contractBalance == b.partner.contractBalance && a.partner.contractBalance == b.our.contractBalance
  }

  ghost predicate Statics(a: Channel, b: Channel) { NoWithdraws(a) && NoWithdraws(b) && Mirrored(a, b) }

  ghost predicate SystemInv(s: System) {
    && ChannelLockInv(s.a) && ChannelLockInv(s.b) && Statics(s.a, s.b)
    && InStep(s.a, s.b, s.ab) && InStep(s.b, s.a, s.ba)
  }

  lemma StaticsKept(c: Channel, d: Channel, other: Channel)
    requires OnlyBooks(c, d)
    ensures Statics(c, other) ==> Statics(d, other)
    ensures Statics(other, c) ==> Statics(other, d)
    ensures d.partner.book == c.partner.book ==> LinkOf(d) == LinkOf(c)
  {
  }

  lemma BudgetCovered(s: System)
    requires SystemInv(s)
    ensures Receives(s.b, LinkOf(s.a))
  {
    TransferredAlongQueue(CoreOf(s.a.partner), s.ba, LinkOf(s.b));
  }

  lemma SendKeepsSystem(s: System, d: Channel, m: Message)
    requires SystemInv(s) && ChannelLockInv(d) && Statics(d, s.b)
    requires d.partner == s.a.partner && LinkOf(d) == LinkOf(s.a)
    requires Fits(CoreOf(s.a.our), m, LinkOf(s.a)) && CoreOf(d.our) == Apply(CoreOf(s.a.our), m)
    ensures SystemInv(System(d, s.b, s.ab + [m], s.ba))
  {
    SendBridges(CoreOf(s.b.partner), s.ab, CoreOf(s.a.our), m, LinkOf(s.a));
    assert InStep(d, s.b, s.ab + [m]);
    assert InStep(s.b, d, s.ba);
  }

  /** The sender is as it was, except for its own end. */
  ghost predicate SenderKept(c: Channel, d: Channel, other: Channel) {
    Statics(d, other) && d.partner == c.partner && LinkOf(d) == LinkOf(c)
  }

  lemma ActedSent(s: System, o: Outcome)
    requires o.Next? && |Outgoing(o.events, s.a.our.address)| == 1
    ensures Acted(s, o) == System(o.channel, s.b, s.ab + [Outgoing(o.events, s.a.our.address)[0]], s.ba)
  {
    assert Outgoing(o.events, s.a.our.address) == [Outgoing(o.events, s.a.our.address)[0]];
  }

  lemma ActedNothing(s: System, o: Outcome)
    requires o.Next? && o.events == []
    ensures Acted(s, o) == System(o.channel, s.b, s.ab, s.ba)
  {
    assert s.ab + [] == s.ab;
  }

  lemma SentKeeps(s: System, o: Outcome)
    requires SystemInv(s) && o.Next? && ChannelLockInv(o.channel) && |Outgoing(o.events, s.a.our.address)| == 1
    requires SendsNext(s.a, o.channel, Outgoing(o.events, s.a.our.address)[0]) && SenderKept(s.a, o.channel, s.b)
    ensures SystemInv(Acted(s, o))
  {
    ActedSent(s, o);
    SendKeepsSystem(s, o.channel, Outgoing(o.events, s.a.our.address)[0]);
  }

  lemma SendFrame(c: Channel, a: Action, other: Channel)
    requires a.ASendLockedTransfer? || a.ASendUnlock? || a.ASendLockExpired?
    requires Step(c, a).Next? && Statics(c, other)
    ensures SenderKept(c, Step(c, a).channel, other)
  {
  }

  lemma NothingSentKeeps(s: System, o: Outcome)
    requires SystemInv(s) && (o.Raised? || o == Next(s.a, []))
    ensures SystemInv(Acted(s, o))
  {
    assert Acted(s, o).ab == s.ab;
  }

  lemma SendTransferKeeps(s: System, amount: int, expiration: int, h: SecretHash)
    requires SystemInv(s) && Allowed(s.a, ASendLockedTransfer(amount, expiration, h))
    ensures SystemInv(Acted(s, DoSendLockedTransfer(s.a, amount, expiration, h)))
  {
    var o := DoSendLockedTransfer(s.a, amount, expiration, h);
    if o.Next? {
      StepKeepsLocksIff(s.a, ASendLockedTransfer(amount, expiration, h));
      SendFrame(s.a, ASendLockedTransfer(amount, expiration, h), s.b);
      SendTransferFits(s.a, amount, expiration, h);
      SentKeeps(s, o);
    } else {
      NothingSentKeeps(s, o);
    }
  }

  lemma SendUnlockKeeps(s: System, secret: Secret, h: SecretHash, block: nat)
    requires SystemInv(s) && Allowed(s.a, ASendUnlock(secret, h, block))
    ensures SystemInv(Acted(s, DoSendUnlock(s.a, secret, h, block)))
  {
    var o := DoSendUnlock(s.a, secret, h, block);
    if o.Next? {
      StepKeepsLocksIff(s.a, ASendUnlock(secret, h, block));
      SendFrame(s.a, ASendUnlock(secret, h, block), s.b);
      SendUnlockFits(s.a, secret, h, block);
      SentKeeps(s, o);
    } else {
      NothingSentKeeps(s, o);
    }
  }

  lemma SendExpiredKeeps(s: System, l: Lock)
    requires SystemInv(s) && Allowed(s.a, ASendLockExpired(l))
    ensures SystemInv(Acted(s, DoSendLockExpired(s.a, l)))
  {
    var o := DoSendLockExpired(s.a, l);
    if o.Next? && Encode(l) in s.a.our.book.pending {
      StepKeepsLocksIff(s.a, ASendLockExpired(l));
      SendFrame(s.a, ASendLockExpired(l), s.b);
      SendExpiredFits(s.a, l);
      SentKeeps(s, o);
    } else {
      NothingSentKeeps(s, o);
    }
  }

  lemma SecretKeepsSystem(s: System, d: Channel)
    requires SystemInv(s) && ChannelLockInv(d) && Statics(d, s.b)
    requires CoreOf(d.our) == CoreOf(s.a.our) && CoreOf(d.partner) == CoreOf(s.a.partner) && LinkOf(d) == LinkOf(s.a)
    ensures SystemInv(System(d, s.b, s.ab, s.ba))
  {
    assert InStep(d, s.b, s.ab);
    assert InStep(s.b, d, s.ba);
  }

  lemma RegisterFrame(c: Channel, a: Action, other: Channel)
    requires (a.ARegisterSecret? || a.ARegisterOnchainSecret?) && Statics(c, other)
    ensures Step(c, a).Next? && Step(c, a).events == [] && Statics(Step(c, a).channel, other)
    ensures LinkOf(Step(c, a).channel) == LinkOf(c)
  {
  }

  lemma RegisterSecretCore(e: End, secret: Secret, h: SecretHash)
    requires LockInv(e.book)
    ensures CoreOf(RegisterSecretEnd(e, secret, h)) == CoreOf(e)
  {
    RegisterSecretKeeps(e.book, secret, h);
    TableMove(e.book, RegisterSecretEnd(e, secret, h).book);
  }

  lemma RegisterOnchainCore(e: End, secret: Secret, h: SecretHash, block: nat)
    requires LockInv(e.book)
    ensures CoreOf(RegisterOnchainEnd(e, secret, h, block, true)) == CoreOf(e)
  {
    RegisterOnchainMoves(e.book, secret, h, block);
    TableMove(e.book, RegisterOnchainEnd(e, secret, h, block, true).book);
  }

  lemma RegisterCores(c: Channel, a: Action)
    requires ChannelLockInv(c) && (a.ARegisterSecret? || (a.ARegisterOnchainSecret? && a.deleteLock))
    ensures Step(c, a).Next? && CoreOf(Step(c, a).channel.our) == CoreOf(c.our)
    ensures CoreOf(Step(c, a).channel.partner) == CoreOf(c.partner)
  {
    if a.ARegisterSecret? {
      RegisterSecretCore(c.our, a.secret, a.secrethash);
      RegisterSecretCore(c.partner, a.secret, a.secrethash);
    } else {
      RegisterOnchainCore(c.our, a.secret, a.secrethash, a.revealBlock);
      RegisterOnchainCore(c.partner, a.secret, a.secrethash, a.revealBlock);
    }
  }

  lemma RegisterKeeps(s: System, a: Action)
    requires SystemInv(s) && (a.ARegisterSecret? || (a.ARegisterOnchainSecret? && a.deleteLock))
    ensures SystemInv(Act(s, a))
  {
    RegisterFrame(s.a, a, s.b);
    StepKeepsLocksIff(s.a, a);
    RegisterCores(s.a, a);
    ActedNothing(s, Step(s.a, a));
    SecretKeepsSystem(s, Step(s.a, a).channel);
  }

  /** Books, nonces and funds are as they were. */
  ghost predicate Untouched(e: End, f: End) {
    && f.book == e.book && f.nonce == e.nonce && f.address == e.address
    && f.contractBalance == e.contractBalance && f.onchainWithdraw == e.onchainWithdraw && f.withdraws == e.withdraws
  }

  lemma BlockUntouched(c: Channel, block: nat)
    requires DoBlock(c, block).Next? && c.our.withdraws == []
    ensures var o := DoBlock(c, block);
      Untouched(c.our, o.channel.our) && Untouched(c.partner, o.channel.partner) && o.channel.id == c.id
    ensures Outgoing(DoBlock(c, block).events, c.our.address) == []
  {
  }

  lemma LifecycleUntouched(c: Channel, a: Action)
    requires Step(c, a).Next? && IsLifecycle(a) && NoWithdraws(c)
    ensures var o := Step(c, a);
      Untouched(c.our, o.channel.our) && Untouched(c.partner, o.channel.partner) && o.channel.id == c.id
    ensures Outgoing(Step(c, a).events, c.our.address) == []
  {
    if a.ABlock? { BlockUntouched(c, a.block); }
  }

  lemma UntouchedStatics(c: Channel, d: Channel, other: Channel)
    requires Statics(c, other) && Untouched(c.our, d.our) && Untouched(c.partner, d.partner) && d.id == c.id
    ensures Statics(d, other) && LinkOf(d) == LinkOf(c)
    ensures CoreOf(d.our) == CoreOf(c.our) && CoreOf(d.partner) == CoreOf(c.partner)
  {
  }

  lemma UntouchedKeeps(s: System, d: Channel)
    requires SystemInv(s) && Untouched(s.a.our, d.our) && Untouched(s.a.partner, d.partner) && d.id == s.a.id
    ensures SystemInv(System(d, s.b, s.ab, s.ba))
  {
    UntouchedStatics(s.a, d, s.b);
    SecretKeepsSystem(s, d);
  }

  lemma ActedQuietly(s: System, o: Outcome)
    requires o.Next? && Outgoing(o.events, s.a.our.address) == []
    ensures Acted(s, o) == System(o.channel, s.b, s.ab, s.ba)
  {
    assert s.ab + [] == s.ab;
  }

  lemma LifecycleKeeps(s: System, a: Action)
    requires SystemInv(s) && IsLifecycle(a)
    ensures SystemInv(Act(s, a))
  {
    var o := Step(s.a, a);
    if o.Next? {
      LifecycleUntouched(s.a, a);
      UntouchedKeeps(s, o.channel);
      ActedQuietly(s, o);
    }
  }

  lemma SendKeeps(s: System, a: Action)
    requires SystemInv(s) && Allowed(s.a, a) && (a.ASendLockedTransfer? || a.ASendUnlock? || a.ASendLockExpired?)
    ensures SystemInv(Act(s, a))
  {
    match a
    case ASendLockedTransfer(amount, expiration, h) => SendTransferKeeps(s, amount, expiration, h);
    case ASendUnlock(secret, h, block) => SendUnlockKeeps(s, secret, h, block);
    case ASendLockExpired(l) => SendExpiredKeeps(s, l);
  }

  lemma ActKeeps(s: System, a: Action)
    requires SystemInv(s) && Allowed(s.a, a)
    ensures SystemInv(Act(s, a))
  {
    if IsLifecycle(a) {
      LifecycleKeeps(s, a);
    } else if a.ARegisterSecret? || a.ARegisterOnchainSecret? {
      RegisterKeeps(s, a);
    } else {
      SendKeeps(s, a);
    }
  }

  /* ---- delivery ---- */

  /**
   An opened receiver takes a transfer or an unlock always, an expiry exactly when
   it is due; any other takes nothing.
   */
  ghost predicate RightlyTaken(c: Channel, o: Outcome, m: Message, block: nat) {
    if GetStatus(c) != Opened || (m.LockExpired? && !ExpiryDue(c, m.secrethash, block)) then !Accepted(o)
    else TakesOver(c, o, m)
  }

  lemma NotOpenedTakesNothing(c: Channel, m: Message, block: nat)
    requires GetStatus(c) != Opened
    ensures !Accepted(Step(c, Reception(m, block)))
  {
  }

  lemma HeadFits(s: System)
    requires SystemInv(s) && s.ab != []
    ensures Fits(CoreOf(s.b.partner), s.ab[0], LinkOf(s.a)) && Receives(s.b, LinkOf(s.a))
  {
    BudgetCovered(s);
  }

  lemma TransferIsTaken(c: Channel, m: Message, block: nat, k: Link)
    requires GetStatus(c) == Opened && m.LockedTransfer? && Receives(c, k) && Fits(CoreOf(c.partner), m, k)
    ensures RightlyTaken(c, Step(c, Reception(m, block)), m, block)
  {
    ReceiveTransferAccepted(c, m.bp, m.lock, k);
  }

  lemma UnlockIsTaken(c: Channel, m: Message, block: nat, k: Link)
    requires GetStatus(c) == Opened && m.Unlock? && Receives(c, k) && Fits(CoreOf(c.partner), m, k)
    ensures RightlyTaken(c, Step(c, Reception(m, block)), m, block)
  {
    ReceiveUnlockAccepted(c, m.bp, m.secret, k);
  }

  lemma ExpiryIsTaken(c: Channel, m: Message, block: nat, k: Link)
    requires GetStatus(c) == Opened && m.LockExpired? && Receives(c, k) && Fits(CoreOf(c.partner), m, k)
    ensures RightlyTaken(c, Step(c, Reception(m, block)), m, block)
  {
    if ExpiryDue(c, m.secrethash, block) {
      ReceiveExpiredAccepted(c, m.bp, m.secrethash, block, k);
    } else {
      EarlyExpiryRejected(c, m.bp, m.secrethash, block);
    }
  }

  lemma FittingIsTaken(c: Channel, m: Message, block: nat, k: Link)
    requires Receives(c, k) && Fits(CoreOf(c.partner), m, k)
    ensures RightlyTaken(c, Step(c, Reception(m, block)), m, block)
  {
    if GetStatus(c) != Opened {
      NotOpenedTakesNothing(c, m, block);
    } else {
      match m
      case LockedTransfer(_, _) => TransferIsTaken(c, m, block, k);
      case Unlock(_, _) => UnlockIsTaken(c, m, block, k);
      case LockExpired(_, _) => ExpiryIsTaken(c, m, block, k);
    }
  }

  lemma DeliveredKeeps(s: System, d: Channel)
    requires SystemInv(s) && s.ab != [] && ChannelLockInv(d) && Statics(s.a, d) && d.our == s.b.our
    requires LinkOf(d) == LinkOf(s.b).(budget := LinkOf(d).budget) && LinkOf(d).budget >= LinkOf(s.b).budget
    requires CoreOf(d.partner) == Apply(CoreOf(s.b.partner), s.ab[0])
    ensures SystemInv(System(s.a, d, s.ab[1..], s.ba))
  {
    LargerBudgetFits(CoreOf(s.a.partner), s.ba, LinkOf(s.b), LinkOf(d).budget);
    assert InStep(s.a, d, s.ab[1..]);
    assert InStep(d, s.a, s.ba);
  }

  lemma BudgetGrows(c: Channel, d: Channel, m: Message, k: Link)
    requires OnlyBooks(c, d) && Fits(CoreOf(c.partner), m, k) && CoreOf(d.partner) == Apply(CoreOf(c.partner), m)
    ensures LinkOf(d) == LinkOf(c).(budget := LinkOf(d).budget) && LinkOf(d).budget >= LinkOf(c).budget
  {
    assert CoreOf(d.partner).transferred == m.bp.transferred;
  }

  lemma FittingLocks(c: Channel, m: Message, block: nat, k: Link)
    requires Receives(c, k) && Fits(CoreOf(c.partner), m, k)
    ensures LocksUsedProperly(c, Reception(m, block))
  {
    if m.LockedTransfer? {
      assert !IsLockPending(c.partner.book, m.lock.secrethash);
    }
  }

  lemma ReceptionFrame(c: Channel, m: Message, block: nat)
    requires Step(c, Reception(m, block)).Next?
    ensures OnlyBooks(c, Step(c, Reception(m, block)).channel)
    ensures Step(c, Reception(m, block)).channel.our == c.our
  {
  }

  lemma DeliverKeeps(s: System, block: nat)
    requires SystemInv(s)
    ensures SystemInv(Deliver(s, block))
  {
    if s.ab != [] {
      var o := Step(s.b, Reception(s.ab[0], block));
      HeadFits(s);
      FittingIsTaken(s.b, s.ab[0], block, LinkOf(s.a));
      if Accepted(o) {
        FittingLocks(s.b, s.ab[0], block, LinkOf(s.a));
        StepKeepsLocksIff(s.b, Reception(s.ab[0], block));
        ReceptionFrame(s.b, s.ab[0], block);
        StaticsKept(s.b, o.channel, s.a);
        BudgetGrows(s.b, o.channel, s.ab[0], LinkOf(s.a));
        DeliveredKeeps(s, o.channel);
      }
    }
  }

  /* ---- runs of the system ---- */

  datatype Move =
    | Acts(first: bool, action: Action)
    | Delivers(toSecond: bool, block: nat)

  ghost function Advance(s: System, m: Move): System {
    match m
    case Acts(true, action) => Act(s, action)
    case Acts(false, action) => Flip(Act(Flip(s), action))
    case Delivers(true, block) => Deliver(s, block)
    case Delivers(false, block) => Flip(Deliver(Flip(s), block))
  }

  /** A run goes on for as long as neither node drops the settled channel. */
  ghost predicate AllowedMove(s: System, m: Move) {
    m.Acts? ==>
      var c := if m.first then s.a else s.b;
      Allowed(c, m.action) && !Step(c, m.action).Removed?
  }

  ghost predicate SystemRun(states: seq<System>, moves: seq<Move>) {
    && |states| == |moves| + 1
    && forall i :: 0 <= i < |moves| ==>
      AllowedMove(states[i], moves[i]) && states[i + 1] == Advance(states[i], moves[i])
  }

  lemma AdvanceKeeps(s: System, m: Move)
    requires SystemInv(s) && AllowedMove(s, m)
    ensures SystemInv(Advance(s, m))
  {
    match m
    case Acts(true, action) => ActKeeps(s, action);
    case Acts(false, action) => ActKeeps(Flip(s), action);
    case Delivers(true, block) => DeliverKeeps(s, block);
    case Delivers(false, block) => DeliverKeeps(Flip(s), block);
  }

  /** A new channel on both sides, with nothing in flight. */
  ghost predicate InitialSystem(s: System) {
    && s.ab == [] && s.ba == []
    && Mirrored(s.a, s.b) && NoWithdraws(s.a) && NoWithdraws(s.b)
    && s.a.our.book == s.a.partner.book == s.b.our.book == s.b.partner.book == Book(map[], map[], map[], [], None)
    && s.a.our.nonce == s.a.partner.nonce == s.b.our.nonce == s.b.partner.nonce == 0
  }

  lemma InitialSystemInv(s: System)
    requires InitialSystem(s)
    ensures SystemInv(s)
  {
    EmptyListNoLocks(s.a.our.book);
  }

  lemma {:induction false} RunKeepsSystem(states: seq<System>, moves: seq<Move>, n: nat)
    requires SystemRun(states, moves) && InitialSystem(states[0]) && n < |states|
    ensures SystemInv(states[n])
  {
    if n == 0 {
      InitialSystemInv(states[0]);
    } else {
      RunKeepsSystem(states, moves, n - 1);
      AdvanceKeeps(states[n - 1], moves[n - 1]);
      assert states[n - 1 + 1] == Advance(states[n - 1], moves[n - 1]);
    }
  }

  /**
   In every reachable state, applying the messages in flight, in order, to what
   the receiver knows of the sender gives exactly the sender's nonce,
   transferred amount, locked amount, pending list and locks: in both directions.
   */
  lemma QueuesReconcile(states: seq<System>, moves: seq<Move>, n: nat)
    requires SystemRun(states, moves) && InitialSystem(states[0]) && n < |states|
    ensures ApplyAll(CoreOf(states[n].b.partner), states[n].ab) == CoreOf(states[n].a.our)
    ensures ApplyAll(CoreOf(states[n].a.partner), states[n].ba) == CoreOf(states[n].b.our)
  {
    RunKeepsSystem(states, moves, n);
  }

  /** Once nothing is in flight the two nodes agree on both balances, and these add up to the deposits. */
  lemma IdleNodesAgree(states: seq<System>, moves: seq<Move>, n: nat)
    requires SystemRun(states, moves) && InitialSystem(states[0]) && n < |states|
    requires states[n].ab == [] && states[n].ba == []
    ensures var s := states[n];
      && Balance(s.a.our, s.a.partner) == Balance(s.b.partner, s.b.our)
      && Balance(s.a.partner, s.a.our) == Balance(s.b.our, s.b.partner)
      && Balance(s.a.our, s.a.partner) + Balance(s.b.our, s.b.partner) == Capacity(s.a) == Capacity(s.b)
  {
    RunKeepsSystem(states, moves, n);
    var s := states[n];
    assert CoreOf(s.b.partner).transferred == CoreOf(s.a.our).transferred;
    assert CoreOf(s.a.partner).transferred == CoreOf(s.b.our).transferred;
  }

  lemma HeadIsTaken(s: System, block: nat)
    requires SystemInv(s) && s.ab != []
    ensures RightlyTaken(s.b, Step(s.b, Reception(s.ab[0], block)), s.ab[0], block)
  {
    HeadFits(s);
    FittingIsTaken(s.b, s.ab[0], block, LinkOf(s.a));
  }

  /**
   In every reachable state the oldest message in flight, either way, is accepted,
   an expiry exactly when it is due.
   */
  lemma MessagesAreAccepted(states: seq<System>, moves: seq<Move>, n: nat, block: nat)
    requires SystemRun(states, moves) && InitialSystem(states[0]) && n < |states|
    ensures states[n].ab != [] ==>
      RightlyTaken(states[n].b, Step(states[n].b, Reception(states[n].ab[0], block)), states[n].ab[0], block)
    ensures states[n].ba != [] ==>
      RightlyTaken(states[n].a, Step(states[n].a, Reception(states[n].ba[0], block)), states[n].ba[0], block)
  {
    RunKeepsSystem(states, moves, n);
    if states[n].ab != [] { HeadIsTaken(states[n], block); }
    if states[n].ba != [] { HeadIsTaken(Flip(states[n]), block); }
  }

  /**
   When the channel is usable for an amount and the lock is new, no assertion of
   `create_sendlockedtransfer` fails; only the 64-bit nonce can still run out.
   */
  lemma UsableTransferIsCreated(c: Channel, l: Lock, lockTimeout: Option<int>)
    requires ChannelLockInv(c) && c.id.channelId <= UINT256_MAX
    requires UsableForTransfer(c, l.amount, lockTimeout) == Usable && Encode(l) !in c.our.book.pending
    ensures CreateLockedTransfer(c, l.amount, l.expiration, l.secrethash).Some? <==> c.our.nonce < UINT64_MAX
  {
    CurrentIsAmountLocked(c.our.book);
  }
}
