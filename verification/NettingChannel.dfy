/**
 The two ends of a channel and the channel itself as objects that the
 operations of `raiden_common/transfer/channel.py` update in place.  Each method
 is proved to do to the object what the function of `ChannelTransitions` does to
 its value, so every law proved about runs holds of these objects.
 */
module NettingChannel {
  import opened Options
  import opened Integers
  import opened LockCodec
  import opened ChannelState
  import opened ChannelTransitions
  import opened ChannelSanity
  import opened ChannelChecks

  /** How an operation ends: an exception, or its events with the channel kept or dropped. */
  datatype Result =
    | Fails
    | Keeps(events: seq<Event>)
    | Drops(events: seq<Event>)

  /** The operation ended as the outcome says, leaving the channel with value `now`. */
  ghost predicate Refines(r: Result, now: Channel, o: Outcome) {
    match o
    case Raised => r.Fails?
    case Next(c, events) => r == Keeps(events) && now == c
    case Removed(events) => r == Drops(events)
  }

  predicate IsUserAction(a: Action) { a.AClose? || a.AWithdraw? || a.ACoopSettle? || a.ASetRevealTimeout? }

  predicate IsClosing(a: Action) { a.AClosed? || a.AUpdatedTransfer? || a.ABlock? }

  predicate IsSettling(a: Action) { a.ASettled? || a.ABatchUnlock? }

  /** The amounts of a dictionary added up, one entry at a time. */
  method Total<V>(m: map<SecretHash, V>, amount: V -> nat) returns (total: nat)
    ensures total == Sum(m, amount)
  {
    total := 0;
    var rest := m;
    while rest != map[]
      invariant total + Sum(rest, amount) == Sum(m, amount)
      decreases |rest|
    {
      var h :| h in rest;
      SumWithout(rest, amount, h);
      total := total + amount(rest[h]);
      rest := rest - {h};
    }
  }

  lemma ExpireRound(e: End, all: seq<Withdraw>, i: nat, block: nat, events: seq<Event>)
    requires i < |all| && block >= SenderThreshold(all[i].expiration)
    ensures var next := ExpireOne(e, all[i]);
      var sent := [SendWithdrawExpired(all[i].total, next.nonce, all[i].expiration)];
      && ExpireLoop(e, all[i..], block).0 == ExpireLoop(next, all[i + 1..], block).0
      && events + ExpireLoop(e, all[i..], block).1 == events + sent + ExpireLoop(next, all[i + 1..], block).1
  {
    assert all[i..][1..] == all[i + 1..];
  }

  lemma ExpireStops(e: End, all: seq<Withdraw>, i: nat, block: nat, events: seq<Event>)
    requires i <= |all| && (i < |all| ==> block < SenderThreshold(all[i].expiration))
    ensures ExpireLoop(e, all[i..], block) == (e, [])
    ensures events + ExpireLoop(e, all[i..], block).1 == events
  {
    assert i < |all| ==> all[i..][0] == all[i];
  }

  /** Whether the encoding of every lock of a dictionary is in the list. */
  method EachListed<V>(m: map<SecretHash, V>, lockOf: V -> Lock, list: seq<EncodedLock>) returns (ok: bool)
    ensures ok <==> forall h :: h in m ==> Encode(lockOf(m[h])) in list
  {
    var rest := m;
    while rest != map[]
      invariant forall h :: h in rest ==> h in m && rest[h] == m[h]
      invariant forall h :: h in m && h !in rest ==> Encode(lockOf(m[h])) in list
      decreases |rest|
    {
      var h :| h in rest;
      if Encode(lockOf(rest[h])) !in list { return false; }
      rest := rest - {h};
    }
    ok := true;
  }

  class NettingChannelEnd {
    const address: Address
    var contractBalance: nat
    var onchainWithdraw: nat
    var withdraws: seq<Withdraw>
    var withdrawsExpired: seq<Withdraw>
    var coopSettle: Option<CoopSettle>
    var locked: map<SecretHash, Lock>
    var unlocked: map<SecretHash, PartialProof>
    var onchain: map<SecretHash, PartialProof>
    var pending: seq<EncodedLock>
    var proof: Option<BalanceProof>
    var onchainLocksroot: Digest
    var nonce: nat

    function BookView(): Book
      reads this
    {
      Book(locked, unlocked, onchain, pending, proof)
    }

    function View(): End
      reads this
    {
      End(address, contractBalance, onchainWithdraw, withdraws, withdrawsExpired, coopSettle, BookView(),
          onchainLocksroot, nonce)
    }

    /** A new end, with the defaults of `NettingChannelEndState`. */
    constructor (address: Address, deposit: nat)
      ensures View() == End(address, deposit, 0, [], [], None, Book(map[], map[], map[], [], None), NoLocksRoot(), 0)
    {
      this.address := address;
      contractBalance := deposit;
      onchainWithdraw := 0;
      withdraws, withdrawsExpired := [], [];
      coopSettle := None;
      locked, unlocked, onchain := map[], map[], map[];
      pending := [];
      proof := None;
      onchainLocksroot := NoLocksRoot();
      nonce := 0;
    }

    method AmountOfLocks() returns (amount: nat)
      ensures amount == AmountLocked(BookView())
    {
      var inLocked := Total(locked, LockAmount);
      var inUnlocked := Total(unlocked, ProofAmount);
      var inOnchain := Total(onchain, ProofAmount);
      amount := inLocked + inUnlocked + inOnchain;
    }

    /** The largest pending total, found by going through the dictionary. */
    method LargestWithdraw() returns (largest: int)
      ensures largest == OffchainWithdraw(withdraws)
    {
      largest := 0;
      for i := 0 to |withdraws|
        invariant largest == OffchainWithdraw(withdraws[..i])
      {
        assert withdraws[..i + 1][..i] == withdraws[..i];
        largest := if i == 0 then withdraws[0].total else Max(largest, withdraws[i].total);
      }
      assert withdraws[..|withdraws|] == withdraws;
    }

    method DelUnclaimedLock(h: SecretHash)
      modifies this
      ensures View() == old(View()).(book := DelUnclaimed(old(BookView()), h))
    {
      if h in locked { locked := locked - {h}; } else { assert locked - {h} == locked; }
      if h in unlocked { unlocked := unlocked - {h}; } else { assert unlocked - {h} == unlocked; }
    }

    /** The lock has to be pending. */
    method RemoveLock(h: SecretHash)
      requires IsLockPending(BookView(), h)
      modifies this
      ensures View() == old(View()).(book := DelLock(old(BookView()), h))
    {
      DelUnclaimedLock(h);
      if h in onchain { onchain := onchain - {h}; } else { assert onchain - {h} == onchain; }
    }

    method RegisterSecret(secret: Secret, h: SecretHash)
      modifies this
      ensures View() == RegisterSecretEnd(old(View()), secret, h)
    {
      if h in locked {
        var lock := locked[h];
        locked := locked - {h};
        unlocked := unlocked[h := PartialProof(lock, secret)];
      }
    }

    method RegisterOnchainSecret(secret: Secret, h: SecretHash, revealBlock: nat, deleteLock: bool)
      modifies this
      ensures View() == RegisterOnchainEnd(old(View()), secret, h, revealBlock, deleteLock)
    {
      var lock: Option<Lock> := None;
      if h in locked { lock := Some(locked[h]); }
      if h in unlocked { lock := Some(unlocked[h].lock); }
      if lock.Some? {
        if lock.value.expiration < revealBlock { return; }
        if deleteLock { RemoveLock(h); }
        onchain := onchain[h := PartialProof(lock.value, secret)];
      }
    }

    method UpdateContractBalance(balance: nat)
      modifies this
      ensures View() == Deposit(old(View()), balance)
    {
      if balance > contractBalance { contractBalance := balance; }
    }

    /** Stores a balance proof with its nonce and the pending list it commits to. */
    method StoreProof(bp: BalanceProof, locks: seq<EncodedLock>)
      modifies this
      ensures View() == WithBook(old(View()), bp, WithProof(old(BookView()), bp, locks))
    {
      proof := Some(bp);
      nonce := bp.nonce;
      pending := locks;
    }

    /** One round of `events_for_expired_withdraws`. */
    method ExpireWithdraw(w: Withdraw)
      modifies this
      ensures View() == ExpireOne(old(View()), w)
    {
      nonce := nonce + 1;
      if coopSettle.Some? {
        if coopSettle.value.totalInitiator == w.total && coopSettle.value.expiration == w.expiration {
          coopSettle := None;
        }
      }
      withdrawsExpired := withdrawsExpired + [w];
      withdraws := DropWithdraw(withdraws, w.total);
    }

    /** Drops the pending withdraw of that total, if there is one. */
    method ClearWithdraw(total: int)
      modifies this
      ensures View() == old(View()).(withdraws := DropWithdraw(old(withdraws), total))
    {
      if FindWithdraw(withdraws, total).Some? {
        withdraws := DropWithdraw(withdraws, total);
      } else {
        DropUnknown(withdraws, total);
      }
    }

    method AddLockedLock(l: Lock)
      modifies this
      ensures View() == old(View()).(book := IndexLock(old(BookView()), l))
    {
      locked := locked[l.secrethash := l];
    }
  }

  class NettingChannel {
    const id: CanonicalId
    const settleTimeout: int
    const our: NettingChannelEnd
    const partner: NettingChannelEnd
    var revealTimeout: int
    var closeTx: Option<TxStatus>
    var settleTx: Option<TxStatus>
    var updateTx: Option<TxStatus>

    ghost predicate Valid() { our != partner }

    function View(): Channel
      reads this, our, partner
    {
      Channel(id, revealTimeout, settleTimeout, our.View(), partner.View(), closeTx, settleTx, updateTx)
    }

    constructor (id: CanonicalId, revealTimeout: int, settleTimeout: int, our: NettingChannelEnd,
                 partner: NettingChannelEnd)
      requires our != partner
      ensures Valid() && this.our == our && this.partner == partner
      ensures View() == Channel(id, revealTimeout, settleTimeout, our.View(), partner.View(), None, None, None)
    {
      this.id := id;
      this.revealTimeout := revealTimeout;
      this.settleTimeout := settleTimeout;
      this.our := our;
      this.partner := partner;
      closeTx, settleTx, updateTx := None, None, None;
    }

    /* ---- queries that go through a dictionary ---- */

    method GetDistributable(sender: NettingChannelEnd, receiver: NettingChannelEnd) returns (amount: int)
      ensures amount == Distributable(sender.View(), receiver.View())
    {
      var locked := sender.AmountOfLocks();
      var withdrawn := sender.LargestWithdraw();
      var current := if sender.proof.Some? then locked else 0;
      var transferred := Transferred(sender.BookView());
      var balance :=
        sender.contractBalance - Max(withdrawn, sender.onchainWithdraw)
        - transferred + Transferred(receiver.BookView());
      amount := Min(Max(UINT256_MAX - transferred - current, 0), balance - locked);
    }

    method ValidLockedTransfer(bp: BalanceProof, l: Lock) returns (locks: Option<seq<EncodedLock>>)
      ensures locks == CheckLockedTransfer(View(), View().partner, View().our, bp, l)
    {
      var distributable := GetDistributable(partner, our);
      var amount := partner.AmountOfLocks();
      var current := if partner.proof.Some? then amount else 0;
      locks := LocksWith(partner.pending, l);
      if !ProofUsable(bp, View(), partner.View()) || locks.None? { return None; }
      if |locks.value| > MAXIMUM_PENDING_TRANSFERS || bp.locksroot != Locksroot(locks.value) { return None; }
      if bp.transferred != Transferred(partner.BookView()) || bp.locked != current + l.amount { return None; }
      if l.amount > distributable { return None; }
    }

    method ValidUnlock(bp: BalanceProof, h: SecretHash) returns (locks: Option<seq<EncodedLock>>)
      ensures locks == CheckUnlock(View(), View().partner, bp, h)
    {
      var lock := GetLock(partner.BookView(), h);
      if lock.None? { return None; }
      var amount := partner.AmountOfLocks();
      var current := if partner.proof.Some? then amount else 0;
      locks := LocksWithout(partner.pending, Encode(lock.value));
      if locks.None? || !ProofUsable(bp, View(), partner.View()) { return None; }
      if bp.locksroot != Locksroot(locks.value) { return None; }
      if bp.transferred != Transferred(partner.BookView()) + lock.value.amount { return None; }
      if bp.locked != current - lock.value.amount { return None; }
    }

    method ValidLockExpired(bp: BalanceProof, h: SecretHash, block: nat) returns (locks: Option<seq<EncodedLock>>)
      ensures locks == CheckLockExpired(View(), View().partner, View().our, bp, h, block)
    {
      var lock: Option<Lock> := None;
      if h in partner.locked { lock := Some(partner.locked[h]); }
      else if h in partner.unlocked { lock := Some(partner.unlocked[h].lock); }
      if h in partner.onchain || lock.None? { return None; }
      var amount := partner.AmountOfLocks();
      var current := if partner.proof.Some? then amount else 0;
      locks := LocksWithout(partner.pending, Encode(lock.value));
      if !ProofUsable(bp, View(), partner.View()) || locks.None? { return None; }
      if !IsLockExpired(our.BookView(), lock.value, block, ReceiverThreshold(lock.value.expiration)) { return None; }
      if bp.locksroot != Locksroot(locks.value) || bp.transferred != Transferred(partner.BookView()) { return None; }
      if bp.locked != current - lock.value.amount { return None; }
    }

    /* ---- sending ---- */

    method CreateSendLockedTransfer(amount: int, expiration: int, h: SecretHash) returns (t: Option<Transfer>)
      requires Valid()
      ensures t == CreateLockedTransfer(View(), amount, expiration, h)
    {
      var distributable := GetDistributable(our, partner);
      var l := HashTimeLock(amount, expiration, h);
      if amount > distributable || GetStatus(View()) != Opened || !IsValidLock(l) { return None; }
      var locks := LocksWith(our.pending, l);
      var transferred := Transferred(our.BookView());
      if locks.None? || transferred + amount > UINT256_MAX { return None; }
      var locked := our.AmountOfLocks();
      var bp := NewProof(our.nonce + 1, transferred, locked + amount, Locksroot(locks.value), id);
      if bp.None? { return None; }
      t := Some(Transfer(bp.value, l, locks.value));
    }

    method SendLockedTransfer(amount: int, expiration: int, h: SecretHash) returns (r: Result)
      requires Valid()
      modifies our
      ensures Refines(r, View(), DoSendLockedTransfer(old(View()), amount, expiration, h))
      ensures r.Fails? ==> View() == old(View())
    {
      var t := CreateSendLockedTransfer(amount, expiration, h);
      if t.None? { return Fails; }
      our.StoreProof(t.value.bp, t.value.pending);
      our.AddLockedLock(t.value.lock);
      r := Keeps([ChannelTransitions.SendLockedTransfer(t.value.bp, t.value.lock)]);
    }

    /** Takes the next nonce before the balance proof is built: a failure may use one up. */
    method CreateUnlock(l: Lock, block: nat) returns (t: Option<Transfer>)
      requires Valid()
      modifies our`nonce
      ensures t == UnlockProof(old(View()), l, block)
      ensures t.Some? ==> our.nonce == t.value.bp.nonce
    {
      t := None;
      if !IsLockPending(our.BookView(), l.secrethash) || GetStatus(View()) != Opened { return; }
      if IsLockExpired(our.BookView(), l, block, l.expiration) || our.proof.None? { return; }
      var locks := LocksWithout(our.pending, Encode(l));
      if locks.None? { return; }
      var locked := our.AmountOfLocks();
      our.nonce := our.nonce + 1;
      var transferred := l.amount + Transferred(our.BookView());
      var bp := NewProof(our.nonce, transferred, locked - l.amount, Locksroot(locks.value), id);
      if bp.Some? { t := Some(Transfer(bp.value, l, locks.value)); }
    }

    method SendUnlock(secret: Secret, h: SecretHash, block: nat) returns (r: Result)
      requires Valid()
      modifies our
      ensures Refines(r, View(), DoSendUnlock(old(View()), secret, h, block))
      ensures r.Fails? ==> View().(our := WithNonce(View().our, old(our.nonce))) == old(View())
    {
      var lock := GetLock(our.BookView(), h);
      if lock.None? { return Fails; }
      var t := CreateUnlock(lock.value, block);
      if t.None? { return Fails; }
      our.StoreProof(t.value.bp, t.value.pending);
      our.RemoveLock(lock.value.secrethash);
      r := Keeps([ChannelTransitions.SendUnlock(t.value.bp, secret)]);
    }

    method SendLockExpired(l: Lock) returns (r: Result)
      requires Valid()
      modifies our
      ensures Refines(r, View(), DoSendLockExpired(old(View()), l))
      ensures r.Fails? ==> View() == old(View())
    {
      if GetStatus(View()) != Opened || our.proof.None? { return Fails; }
      var locked := our.AmountOfLocks();
      var locks := LocksWithout(our.pending, Encode(l));
      if locks.None? { return Keeps([]); }
      var bp := NewProof(our.nonce + 1, Transferred(our.BookView()), locked - l.amount, Locksroot(locks.value), id);
      if bp.None? { return Fails; }
      our.StoreProof(bp.value, locks.value);
      our.DelUnclaimedLock(l.secrethash);
      r := Keeps([ChannelTransitions.SendLockExpired(bp.value, l.secrethash)]);
    }

    method SendWithdrawRequest(total: int, expiration: int, coopSettle: bool) returns (events: seq<Event>)
      requires Valid()
      modifies our
      ensures (View(), events) == RequestWithdraw(old(View()), total, expiration, coopSettle)
    {
      if !PriorToClosed(GetStatus(View())) { return []; }
      our.nonce := our.nonce + 1;
      our.withdraws := PutWithdraw(our.withdraws, Withdraw(total, expiration, our.nonce));
      events := [ChannelTransitions.SendWithdrawRequest(total, our.nonce, expiration, coopSettle)];
    }

    /** Goes through a copy of the pending withdraws and stops at the first that is not expired. */
    method EventsForExpiredWithdraws(block: nat) returns (events: seq<Event>)
      requires Valid()
      modifies our
      ensures (our.View(), events) == ExpireLoop(old(our.View()), old(our.withdraws), block)
    {
      events := [];
      var all := our.withdraws;
      var i := 0;
      ghost var e := our.View();
      ghost var whole := ExpireLoop(e, all, block);
      assert all[0..] == all && [] + whole.1 == whole.1;
      while i < |all| && block >= SenderThreshold(all[i].expiration)
        invariant 0 <= i <= |all| && e == our.View()
        invariant whole.0 == ExpireLoop(e, all[i..], block).0
        invariant whole.1 == events + ExpireLoop(e, all[i..], block).1
      {
        ExpireRound(e, all, i, block, events);
        our.ExpireWithdraw(all[i]);
        e := ExpireOne(e, all[i]);
        events := events + [SendWithdrawExpired(all[i].total, our.nonce, all[i].expiration)];
        i := i + 1;
      }
      ExpireStops(e, all, i, block, events);
    }

    /* ---- secrets ---- */

    method RegisterOffchainSecret(secret: Secret, h: SecretHash) returns (r: Result)
      requires Valid()
      modifies our, partner
      ensures Refines(r, View(), DoRegisterSecret(old(View()), secret, h))
    {
      our.RegisterSecret(secret, h);
      partner.RegisterSecret(secret, h);
      r := Keeps([]);
    }

    method RegisterOnchainSecret(secret: Secret, h: SecretHash, revealBlock: nat, deleteLock: bool) returns (r: Result)
      requires Valid()
      modifies our, partner
      ensures Refines(r, View(), DoRegisterOnchainSecret(old(View()), secret, h, revealBlock, deleteLock))
    {
      our.RegisterOnchainSecret(secret, h, revealBlock, deleteLock);
      partner.RegisterOnchainSecret(secret, h, revealBlock, deleteLock);
      r := Keeps([]);
    }

    /* ---- actions of the user ---- */

    method HandleActionClose(channelId: nat, block: nat) returns (r: Result)
      requires Valid()
      modifies this
      ensures Refines(r, View(), DoClose(old(View()), channelId, block))
    {
      if channelId != id.channelId { return Fails; }
      if !PriorToClosed(GetStatus(View())) { return Keeps([]); }
      closeTx := Some(TxStatus(Some(block), None, None));
      r := Keeps([ContractClose(partner.proof)]);
    }

    method HandleActionWithdraw(total: int, block: nat) returns (r: Result)
      requires Valid()
      modifies our
      ensures Refines(r, View(), DoWithdraw(old(View()), total, block))
    {
      if !ValidTotalWithdraw(View(), total, false) { return Keeps([Invalid]); }
      var events := SendWithdrawRequest(total, InitialExpiration(block, revealTimeout), false);
      r := Keeps(events);
    }

    method HandleActionCoopSettle(block: nat) returns (r: Result)
      requires Valid()
      modifies our
      ensures Refines(r, View(), DoCoopSettle(old(View()), block))
    {
      var ourMax := MaxWithdraw(our.View(), partner.View());
      var partnerMax := MaxWithdraw(partner.View(), our.View());
      if !ValidCoopSettle(View(), ourMax) { return Keeps([Invalid]); }
      var expiration := InitialExpiration(block, revealTimeout);
      our.coopSettle := Some(CoopSettle(ourMax, partnerMax, expiration, false, false, None));
      var events := SendWithdrawRequest(ourMax, expiration, true);
      r := Keeps(events);
    }

    method HandleActionSetRevealTimeout(timeout: int) returns (r: Result)
      requires Valid()
      modifies this
      ensures Refines(r, View(), DoSetRevealTimeout(old(View()), timeout))
    {
      if timeout >= 7 && settleTimeout >= timeout * 2 {
        revealTimeout := timeout;
        r := Keeps([]);
      } else {
        r := Keeps([Invalid]);
      }
    }

    /* ---- messages from the partner ---- */

    /** Also a refund, when `matches` says that it answers the transfer that was sent. */
    method HandleReceiveLockedTransfer(bp: BalanceProof, l: Lock, matches: bool) returns (r: Result)
      requires Valid()
      modifies partner
      ensures Refines(r, View(), DoReceiveLockedTransfer(old(View()), bp, l, matches))
    {
      var locks := ValidLockedTransfer(bp, l);
      if locks.None? || !matches { return Keeps([Invalid]); }
      partner.StoreProof(bp, locks.value);
      partner.AddLockedLock(l);
      r := Keeps([SendProcessed]);
    }

    method HandleUnlock(bp: BalanceProof, h: SecretHash) returns (r: Result)
      requires Valid()
      modifies partner
      ensures Refines(r, View(), DoReceiveUnlock(old(View()), bp, h))
    {
      var locks := ValidUnlock(bp, h);
      if locks.None? { return Keeps([Invalid]); }
      partner.StoreProof(bp, locks.value);
      partner.RemoveLock(h);
      r := Keeps([SendProcessed]);
    }

    method HandleReceiveLockExpired(bp: BalanceProof, h: SecretHash, block: nat) returns (r: Result)
      requires Valid()
      modifies partner
      ensures Refines(r, View(), DoReceiveLockExpired(old(View()), bp, h, block))
    {
      var locks := ValidLockExpired(bp, h, block);
      if locks.None? { return Keeps([Invalid]); }
      partner.StoreProof(bp, locks.value);
      partner.DelUnclaimedLock(h);
      r := Keeps([SendProcessed]);
    }

    /** `events_for_coop_settle`, after the partner's signature `s` was stored. */
    method EventsForCoopSettle(s: CoopSettle, block: nat) returns (events: seq<Event>)
      requires Valid()
      modifies our
      ensures (View(), events) == TrySendCoopSettle(old(View()), s, block)
    {
      our.coopSettle := Some(s);
      if s.requestSigned && s.confirmationSigned && s.expiration >= block - revealTimeout {
        our.coopSettle := Some(s.(transaction := Some(TxStatus(Some(block), None, None))));
        return [ContractCoopSettle(s.totalInitiator, s.totalPartner, s.expiration)];
      }
      events := [];
    }

    method ConfirmWithdraw(events: seq<Event>, m: WithdrawMessage) returns (r: Result)
      requires Valid()
      modifies our
      ensures Refines(r, View(), Confirm(old(View()), events, m))
    {
      our.nonce := our.nonce + 1;
      r := Keeps(events + [SendWithdrawConfirmation(m.total, our.nonce, m.expiration)]);
    }

    method StoreWithdrawRequest(m: WithdrawMessage)
      requires Valid()
      modifies partner
      ensures View() == StoreRequest(old(View()), m)
    {
      partner.withdraws := PutWithdraw(partner.withdraws, Withdraw(m.total, m.expiration, m.nonce));
      partner.nonce := m.nonce;
    }

    /** The partner answers the coop-settle that this node initiated. */
    method AnswerCoopSettle(m: WithdrawMessage, block: nat) returns (r: Result)
      requires Valid() && our.coopSettle.Some?
      modifies our
      ensures Refines(r, View(), AnswerOurCoopSettle(old(View()), old(our.coopSettle.value), m, block))
    {
      var s := our.coopSettle.value;
      if s.expiration != m.expiration { return Keeps([Invalid]); }
      if s.totalPartner != m.total { return Fails; }
      var events := EventsForCoopSettle(s.(requestSigned := true), block);
      r := ConfirmWithdraw(events, m);
    }

    /** The partner initiates a coop-settle; the request event is put in the list twice. */
    method AcceptPartnerCoopSettle(m: WithdrawMessage) returns (r: Result)
      requires Valid()
      modifies our, partner
      ensures Refines(r, View(), AcceptCoopSettle(old(View()), m))
    {
      var ourMax := MaxWithdraw(our.View(), partner.View());
      if our.pending != [] { return Keeps([Invalid]); }
      partner.coopSettle := Some(CoopSettle(m.total, ourMax, m.expiration, true, false, None));
      var events := SendWithdrawRequest(ourMax, m.expiration, false);
      events := events + events;
      r := ConfirmWithdraw(events, m);
    }

    method HandleReceiveWithdrawRequest(m: WithdrawMessage, coopSettle: bool, block: nat) returns (r: Result)
      requires Valid()
      modifies our, partner
      ensures Refines(r, View(), DoReceiveWithdrawRequest(old(View()), m, coopSettle, block))
    {
      if !ValidWithdrawRequest(View(), m) { return Keeps([Invalid]); }
      StoreWithdrawRequest(m);
      if our.coopSettle.None? && !coopSettle {
        r := ConfirmWithdraw([], m);
        return;
      }
      if MaxWithdraw(partner.View(), our.View()) != m.total || partner.pending != [] { return Keeps([Invalid]); }
      if our.coopSettle.Some? {
        r := AnswerCoopSettle(m, block);
      } else {
        r := AcceptPartnerCoopSettle(m);
      }
    }

    method HandleReceiveWithdrawConfirmation(m: WithdrawMessage, block: nat) returns (r: Result)
      requires Valid()
      modifies our, partner
      ensures Refines(r, View(), DoReceiveWithdrawConfirmation(old(View()), m, block))
    {
      if !ValidWithdrawConfirmation(View(), m) { return Keeps([Invalid]); }
      partner.nonce := m.nonce;
      var events := [SendProcessed];
      if our.coopSettle.Some? {
        if partner.coopSettle.Some? { return Fails; }
        var more := EventsForCoopSettle(our.coopSettle.value.(confirmationSigned := true), block);
        events := events + more;
      } else if partner.coopSettle.None? && m.expiration >= block - revealTimeout {
        events := events + [ContractWithdraw(m.total, m.expiration)];
      }
      r := Keeps(events);
    }

    method HandleReceiveWithdrawExpired(m: WithdrawMessage, block: nat) returns (r: Result)
      requires Valid()
      modifies partner
      ensures Refines(r, View(), DoReceiveWithdrawExpired(old(View()), m, block))
    {
      var found := FindWithdraw(partner.withdraws, m.total);
      if found.None? { return Keeps([Invalid]); }
      var w := found.value;
      if !ValidWithdrawExpired(View(), m, w, block) { return Keeps([Invalid]); }
      partner.withdraws := DropWithdraw(partner.withdraws, w.total);
      partner.nonce := m.nonce;
      if partner.coopSettle.Some? {
        if partner.coopSettle.value.totalInitiator == w.total && partner.coopSettle.value.expiration == w.expiration {
          partner.coopSettle := None;
        }
      }
      r := Keeps([SendProcessed]);
    }

    /* ---- blocks and on-chain events ---- */

    method HandleBlock(block: nat) returns (r: Result)
      requires Valid()
      modifies this, our
      ensures Refines(r, View(), DoBlock(old(View()), block))
    {
      if GetStatus(View()) == Opened {
        var events := EventsForExpiredWithdraws(block);
        return Keeps(events);
      }
      if GetStatus(View()) == Closed {
        if Unfinished(closeTx.value) { return Fails; }
        if block > closeTx.value.finished.value + settleTimeout {
          settleTx := Some(TxStatus(Some(block), None, None));
          return Keeps([ContractSettle]);
        }
      }
      r := Keeps([]);
    }

    method SetClosed(block: nat)
      modifies this
      ensures View() == old(View()).(closeTx := Finish(old(closeTx), block))
    {
      if closeTx.None? {
        closeTx := Some(TxStatus(None, Some(block), Some(Success)));
      } else if Unfinished(closeTx.value) {
        closeTx := Some(closeTx.value.(finished := Some(block), result := Some(Success)));
      }
    }

    method SetSettled(block: nat)
      modifies this
      ensures View() == old(View()).(settleTx := Finish(old(settleTx), block))
    {
      if settleTx.None? {
        settleTx := Some(TxStatus(None, Some(block), Some(Success)));
      } else if Unfinished(settleTx.value) {
        settleTx := Some(settleTx.value.(finished := Some(block), result := Some(Success)));
      }
    }

    method HandleChannelClosed(channelId: nat, from: Address, block: nat) returns (r: Result)
      requires Valid()
      modifies this
      ensures Refines(r, View(), DoClosed(old(View()), channelId, from, block))
    {
      if channelId != id.channelId || !PriorToClosed(GetStatus(View())) { return Keeps([]); }
      SetClosed(block);
      if from != our.address && partner.proof.Some? && updateTx.None? {
        updateTx := Some(TxStatus(Some(block), None, None));
        return Keeps([ContractUpdateTransfer(block + settleTimeout, partner.proof.value)]);
      }
      r := Keeps([]);
    }

    method HandleUpdatedTransfer(channelId: nat, block: nat) returns (r: Result)
      requires Valid()
      modifies this
      ensures Refines(r, View(), DoUpdatedTransfer(old(View()), channelId, block))
    {
      if channelId == id.channelId {
        updateTx := Some(TxStatus(None, Some(block), Some(Success)));
      }
      r := Keeps([]);
    }

    /** The recorded coop-settle of `side` is the one that was settled on-chain. */
    predicate SettlesCoop(side: NettingChannelEnd, initiator: nat, other: nat, i: SettleInfo)
      reads side
    {
      && side.coopSettle.Some?
      && side.coopSettle.value.totalInitiator == initiator
      && side.coopSettle.value.totalPartner == other
      && i.ourLocksroot == NoLocksRoot() && i.partnerLocksroot == NoLocksRoot()
    }

    method HandleChannelSettled(i: SettleInfo) returns (r: Result)
      requires Valid()
      modifies this, our, partner
      ensures Refines(r, View(), DoSettled(old(View()), i))
    {
      if i.channelId != id.channelId { return Keeps([]); }
      SetSettled(i.block);
      var isCoop := false;
      if SettlesCoop(our, i.ourTransferred, i.partnerTransferred, i) {
        our.coopSettle := Some(our.coopSettle.value.(transaction := Finish(our.coopSettle.value.transaction, i.block)));
        isCoop := true;
      }
      if SettlesCoop(partner, i.partnerTransferred, i.ourTransferred, i) {
        var s := partner.coopSettle.value;
        partner.coopSettle := Some(s.(transaction := Finish(s.transaction, i.block)));
        isCoop := true;
      }
      if isCoop {
        partner.onchainWithdraw := i.partnerTransferred;
        our.onchainWithdraw := i.ourTransferred;
      }
      if i.ourLocksroot == NoLocksRoot() && i.partnerLocksroot == NoLocksRoot() { return Drops([]); }
      our.onchainLocksroot := i.ourLocksroot;
      partner.onchainLocksroot := i.partnerLocksroot;
      r := Keeps([ContractBatchUnlock(partner.address)]);
    }

    method HandleChannelDeposit(participant: Address, balance: nat) returns (r: Result)
      requires Valid()
      modifies our, partner
      ensures Refines(r, View(), DoDeposit(old(View()), participant, balance))
    {
      if participant == our.address {
        our.UpdateContractBalance(balance);
      } else if participant == partner.address {
        partner.UpdateContractBalance(balance);
      }
      r := Keeps([]);
    }

    method HandleChannelWithdraw(participant: Address, total: nat) returns (r: Result)
      requires Valid()
      modifies our, partner
      ensures Refines(r, View(), DoChainWithdraw(old(View()), participant, total))
    {
      if participant != our.address && participant != partner.address { return Keeps([]); }
      var side := if participant == our.address then our else partner;
      side.ClearWithdraw(total);
      side.onchainWithdraw := total;
      r := Keeps([]);
    }

    method HandleBatchUnlock(sender: Address) returns (r: Result)
      requires Valid()
      modifies our, partner
      ensures Refines(r, View(), DoBatchUnlock(old(View()), sender))
    {
      if GetStatus(View()) != Settled { return Keeps([]); }
      if sender == our.address {
        our.onchainLocksroot := NoLocksRoot();
      } else if sender == partner.address {
        partner.onchainLocksroot := NoLocksRoot();
      }
      if our.onchainLocksroot == NoLocksRoot() && partner.onchainLocksroot == NoLocksRoot() { return Drops([]); }
      r := Keeps([]);
    }

    method HandleLockAction(a: Action) returns (r: Result)
      requires Valid() && TouchesLocks(a)
      modifies our, partner
      ensures Refines(r, View(), Step(old(View()), a))
    {
      match a
      case ASendLockedTransfer(amount, expiration, h) => r := SendLockedTransfer(amount, expiration, h);
      case ASendUnlock(secret, h, block) => r := SendUnlock(secret, h, block);
      case ASendLockExpired(l) => r := SendLockExpired(l);
      case ARegisterSecret(secret, h) => r := RegisterOffchainSecret(secret, h);
      case ARegisterOnchainSecret(secret, h, block, del) => r := RegisterOnchainSecret(secret, h, block, del);
      case AReceiveLockedTransfer(bp, l, matches) => r := HandleReceiveLockedTransfer(bp, l, matches);
      case AReceiveUnlock(bp, secret) => r := HandleUnlock(bp, Sha256(secret));
      case AReceiveLockExpired(bp, h, block) => r := HandleReceiveLockExpired(bp, h, block);
    }

    method HandleUserAction(a: Action) returns (r: Result)
      requires Valid() && IsUserAction(a)
      modifies this, our, partner
      ensures Refines(r, View(), Step(old(View()), a))
    {
      match a
      case AClose(channelId, block) => r := HandleActionClose(channelId, block);
      case AWithdraw(total, block) => r := HandleActionWithdraw(total, block);
      case ACoopSettle(block) => r := HandleActionCoopSettle(block);
      case ASetRevealTimeout(timeout) => r := HandleActionSetRevealTimeout(timeout);
    }

    method HandleWithdrawMessage(a: Action) returns (r: Result)
      requires Valid() && IsRequest(a) && !IsUserAction(a)
      modifies our, partner
      ensures Refines(r, View(), Step(old(View()), a))
    {
      match a
      case AReceiveWithdrawRequest(m, coop, block) => r := HandleReceiveWithdrawRequest(m, coop, block);
      case AReceiveWithdrawConfirmation(m, block) => r := HandleReceiveWithdrawConfirmation(m, block);
      case AReceiveWithdrawExpired(m, block) => r := HandleReceiveWithdrawExpired(m, block);
    }

    method HandleClosing(a: Action) returns (r: Result)
      requires Valid() && IsClosing(a)
      modifies this, our, partner
      ensures Refines(r, View(), Step(old(View()), a))
    {
      match a
      case AClosed(channelId, from, block) => r := HandleChannelClosed(channelId, from, block);
      case AUpdatedTransfer(channelId, block) => r := HandleUpdatedTransfer(channelId, block);
      case ABlock(block) => r := HandleBlock(block);
    }

    method HandleSettling(a: Action) returns (r: Result)
      requires Valid() && IsSettling(a)
      modifies this, our, partner
      ensures Refines(r, View(), Step(old(View()), a))
    {
      match a
      case ASettled(info) => r := HandleChannelSettled(info);
      case ABatchUnlock(sender) => r := HandleBatchUnlock(sender);
    }

    method HandleFunds(a: Action) returns (r: Result)
      requires Valid() && (a.ADeposit? || a.AChainWithdraw?)
      modifies our, partner
      ensures Refines(r, View(), ChainStep(old(View()), a))
    {
      match a
      case ADeposit(participant, balance) => r := HandleChannelDeposit(participant, balance);
      case AChainWithdraw(participant, total) => r := HandleChannelWithdraw(participant, total);
    }

    /** One state change: the object moves as the step relation says. */
    method Handle(a: Action) returns (r: Result)
      requires Valid()
      modifies this, our, partner
      ensures Refines(r, View(), Step(old(View()), a))
    {
      if TouchesLocks(a) {
        r := HandleLockAction(a);
      } else if IsUserAction(a) {
        r := HandleUserAction(a);
      } else if IsRequest(a) {
        r := HandleWithdrawMessage(a);
      } else if IsClosing(a) {
        r := HandleClosing(a);
      } else if IsSettling(a) {
        r := HandleSettling(a);
      } else {
        r := HandleFunds(a);
      }
    }

    /* ---- the sanity check ---- */

    /** The first loop of `sanity_check`: our totals are positive and increasing unless a settlement is recorded. */
    method WithdrawsAreOrdered() returns (ok: bool)
      ensures ok <==> WithdrawOrderHolds(View())
    {
      var previous := 0;
      var recorded := our.coopSettle.Some? || partner.coopSettle.Some?;
      for i := 0 to |our.withdraws|
        invariant previous == if i == 0 then 0 else our.withdraws[i - 1].total
        invariant !recorded && i > 0 ==> our.withdraws[0].total > 0
        invariant !recorded ==> forall j :: 0 < j < i ==> our.withdraws[j - 1].total < our.withdraws[j].total
      {
        if !recorded && our.withdraws[i].total <= previous { return false; }
        previous := our.withdraws[i].total;
      }
      ok := true;
    }

    /** The assertions about one end. */
    method EndIsSane(side: NettingChannelEnd, other: NettingChannelEnd) returns (ok: bool)
      ensures ok <==> EndSane(side.View(), other.View())
    {
      var locked := side.AmountOfLocks();
      var withdrawn := side.LargestWithdraw();
      var distributable := GetDistributable(side, other);
      var balance := side.contractBalance - Max(withdrawn, side.onchainWithdraw)
        - Transferred(side.BookView()) + Transferred(other.BookView());
      var current := if side.proof.Some? then locked else 0;
      var root := if side.proof.Some? then side.proof.value.locksroot else NoLocksRoot();
      var inLocked := EachListed(side.locked, l => l, side.pending);
      var inUnlocked := EachListed(side.unlocked, (p: PartialProof) => p.lock, side.pending);
      var inOnchain := EachListed(side.onchain, (p: PartialProof) => p.lock, side.pending);
      ok := balance >= 0 && current == locked && distributable + locked <= balance && Locksroot(side.pending) == root
        && inLocked && inUnlocked && inOnchain;
    }

    /** `sanity_check`: whether all its assertions hold. */
    method PassesSanityCheck() returns (ok: bool)
      ensures ok <==> SanityCheck(View())
    {
      var ordered := WithdrawsAreOrdered();
      var oursIsSane := EndIsSane(our, partner);
      var theirsIsSane := EndIsSane(partner, our);
      ok := ordered && oursIsSane && theirsIsSane;
    }

    /**
     What the node does with a state change.  The operations on locks are called by
     the payment tasks and not checked; all others go through `state_transition`,
     which runs `sanity_check` on the channel that is left.  Such a change fails
     exactly when the handler does or the check does, and for a channel in shape,
     whatever was done to its locks since the last check, this can be told before
     the call.
     */
    method StateTransition(a: Action) returns (r: Result)
      requires Valid()
      modifies this, our, partner
      ensures var o := Step(old(View()), a);
        && (r.Fails? <==> o.Raised? || (!TouchesLocks(a) && o.Next? && !SanityCheck(o.channel)))
        && (!r.Fails? ==> Refines(r, View(), o))
        && (!TouchesLocks(a) && InShape(old(View())) && o.Next? ==> (r.Fails? <==> !CheckGuard(old(View()), a)))
    {
      ghost var before := View();
      r := Handle(a);
      if TouchesLocks(a) { return; }
      if InShape(before) && Step(before, a).Next? { CheckPassesIff(before, a); }
      if r.Keeps? {
        var ok := PassesSanityCheck();
        if !ok { r := Fails; }
      }
    }
  }
}
