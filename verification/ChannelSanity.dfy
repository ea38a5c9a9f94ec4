/**
 The assertions of `sanity_check`: what they come to for a channel in shape, and
 exactly which steps, and so which runs, never fail one of them.
 */
module ChannelSanity {
  import opened LockCodec
  import opened ChannelState
  import opened ChannelTransitions
  import opened LockInvariant
  import opened ChannelRuns
  import opened ChannelSolvency
  import opened ChannelWithdraws

  /** The per-end assertions of `sanity_check`. */
  ghost predicate EndSane(e: End, other: End) {
    && Balance(e, other) >= 0
    && CurrentLocked(e.book) == AmountLocked(e.book)
    && Distributable(e, other) + AmountLocked(e.book) <= Balance(e, other)
    && Locksroot(e.book.pending) == (if e.book.proof.Some? then e.book.proof.value.locksroot else NoLocksRoot())
    && (forall h :: h in e.book.locked ==> Encode(e.book.locked[h]) in e.book.pending)
    && (forall h :: h in e.book.unlocked ==> Encode(e.book.unlocked[h].lock) in e.book.pending)
    && (forall h :: h in e.book.onchain ==> Encode(e.book.onchain[h].lock) in e.book.pending)
  }

  /** There is no coop-settle record on either side. */
  ghost predicate NoRecord(c: Channel) { c.our.coopSettle.None? && c.partner.coopSettle.None? }

  /** The assertion about our pending withdraws. */
  ghost predicate WithdrawOrderHolds(c: Channel) {
    NoRecord(c) ==>
      && (|c.our.withdraws| > 0 ==> c.our.withdraws[0].total > 0)
      && forall i :: 0 < i < |c.our.withdraws| ==> c.our.withdraws[i - 1].total < c.our.withdraws[i].total
  }

  /** `sanity_check`. */
  ghost predicate SanityCheck(c: Channel) {
    && WithdrawOrderHolds(c)
    && Balance(c.our, c.partner) + Balance(c.partner, c.our) == Capacity(c)
    && EndSane(c.our, c.partner)
    && EndSane(c.partner, c.our)
  }

  /* ---- what keeps its shape in any run ---- */

  /** No encoding is listed twice, locks are under their own secrethash and the stored proof commits to the list. */
  ghost predicate Shape(b: Book) {
    && NoDuplicates(b.pending)
    && (forall h :: h in b.locked ==> b.locked[h].secrethash == h)
    && (forall h :: h in b.unlocked ==> b.unlocked[h].lock.secrethash == h)
    && (forall h :: h in b.onchain ==> b.onchain[h].lock.secrethash == h)
    && (if b.proof.None? then b.pending == [] else b.proof.value.locksroot == Locksroot(b.pending))
  }

  /** Every indexed lock is in the pending list. */
  ghost predicate Listed(b: Book) {
    && (forall h :: h in b.locked ==> Encode(b.locked[h]) in b.pending)
    && (forall h :: h in b.unlocked ==> Encode(b.unlocked[h].lock) in b.pending)
    && (forall h :: h in b.onchain ==> Encode(b.onchain[h].lock) in b.pending)
  }

  ghost predicate Shaped(c: Channel) {
    Shape(c.our.book) && Shape(c.partner.book) && Ascending(c.our.withdraws, -1)
  }

  lemma ShapedEndSaneIff(e: End, other: End)
    requires Shape(e.book)
    ensures EndSane(e, other) <==> Listed(e.book) && Balance(e, other) >= 0
  {
    if Listed(e.book) && e.book.proof.None? {
      assert e.book.locked == map[] && e.book.unlocked == map[] && e.book.onchain == map[];
    }
  }

  ghost predicate AllListed(c: Channel) { Listed(c.our.book) && Listed(c.partner.book) }

  /** Our totals are in order unless a coop-settle is recorded. */
  ghost predicate OrderedWithoutRecord(c: Channel) { NoRecord(c) ==> Ordered(c.our.withdraws) }

  /** For a channel in shape the check says that locks are listed, balances not negative and totals in order. */
  lemma ShapedSaneIff(c: Channel)
    requires Shaped(c)
    ensures SanityCheck(c) <==> AllListed(c) && Funded(c) && OrderedWithoutRecord(c)
  {
    ShapedEndSaneIff(c.our, c.partner);
    ShapedEndSaneIff(c.partner, c.our);
    var ws := c.our.withdraws;
    assert |ws| > 0 && ws[0].total > 0 ==> Ordered(ws);
  }

  /* ---- locks ---- */

  lemma AddShape(b: Book, bp: BalanceProof, l: Lock)
    requires Shape(b) && Encode(l) !in b.pending && bp.locksroot == Locksroot(b.pending + [Encode(l)])
    ensures Shape(AddLock(b, bp, l)) && (Listed(b) ==> Listed(AddLock(b, bp, l)))
  {
    assert forall x :: x in b.pending ==> x in b.pending + [Encode(l)];
  }

  /** The list without a lock still holds every lock with another secrethash. */
  lemma OthersStayListed(b: Book, l: Lock, other: Lock)
    requires NoDuplicates(b.pending) && Encode(l) in b.pending && Encode(other) in b.pending
    ensures Encode(other) in RemoveFirst(b.pending, Encode(l)) <==> other != l
  {
    RemoveFirstMembers(b.pending, Encode(l));
    if Encode(other) == Encode(l) { EncodeInjective(other, l); }
  }

  ghost function Proven(b: Book, bp: BalanceProof, l: Lock): Book {
    WithProof(b, bp, RemoveFirst(b.pending, Encode(l)))
  }

  lemma RemoveShape(b: Book, bp: BalanceProof, l: Lock)
    requires Shape(b) && Encode(l) in b.pending && bp.locksroot == Locksroot(RemoveFirst(b.pending, Encode(l)))
    ensures Shape(DelLock(Proven(b, bp, l), l.secrethash)) && Shape(DelUnclaimed(Proven(b, bp, l), l.secrethash))
  {
    RemoveFirstMembers(b.pending, Encode(l));
  }

  /** A lock claimed on-chain is about to lose its place in the list. */
  ghost predicate Claims(b: Book, l: Lock) { l.secrethash in b.onchain && b.onchain[l.secrethash].lock == l }

  lemma RemoveListed(b: Book, bp: BalanceProof, l: Lock)
    requires Shape(b) && Listed(b) && Encode(l) in b.pending
    ensures Listed(DelLock(Proven(b, bp, l), l.secrethash))
    ensures Listed(DelUnclaimed(Proven(b, bp, l), l.secrethash)) <==> !Claims(b, l)
  {
    forall h | h in b.locked ensures Encode(b.locked[h]) in RemoveFirst(b.pending, Encode(l)) <==> b.locked[h] != l {
      OthersStayListed(b, l, b.locked[h]);
    }
    forall h | h in b.unlocked
      ensures Encode(b.unlocked[h].lock) in RemoveFirst(b.pending, Encode(l)) <==> b.unlocked[h].lock != l
    {
      OthersStayListed(b, l, b.unlocked[h].lock);
    }
    forall h | h in b.onchain
      ensures Encode(b.onchain[h].lock) in RemoveFirst(b.pending, Encode(l)) <==> b.onchain[h].lock != l
    {
      OthersStayListed(b, l, b.onchain[h].lock);
    }
  }

  lemma RegisterShape(b: Book, secret: Secret, h: SecretHash)
    requires Shape(b)
    ensures Shape(RegisterSecretBook(b, secret, h)) && (Listed(b) ==> Listed(RegisterSecretBook(b, secret, h)))
  {
  }

  lemma RegisterOnchainShape(b: Book, secret: Secret, h: SecretHash, block: nat, del: bool)
    requires Shape(b)
    ensures Shape(RegisterOnchainBook(b, secret, h, block, del))
    ensures Listed(b) ==> Listed(RegisterOnchainBook(b, secret, h, block, del))
  {
    var lock := ClaimableLock(b, h, block);
    if lock.Some? {
      assert lock.value.secrethash == h && (Listed(b) ==> Encode(lock.value) in b.pending);
    }
  }

  /** An expiry that is sent must not be of a lock claimed on-chain. */
  ghost predicate ExpiryGuard(c: Channel, a: Action) {
    a.ASendLockExpired? && Encode(a.lock) in c.our.book.pending ==> !Claims(c.our.book, a.lock)
  }

  /** The books keep their shape; the locks stay listed exactly under the guard. */
  ghost predicate BooksKept(c: Channel, a: Action, d: Channel) {
    && Shape(d.our.book) && Shape(d.partner.book)
    && (AllListed(c) ==> (AllListed(d) <==> ExpiryGuard(c, a)))
  }

  lemma SendBooks(c: Channel, a: Action)
    requires Shape(c.our.book) && Shape(c.partner.book) && Step(c, a).Next?
    requires a.ASendLockedTransfer? || a.ASendUnlock? || a.ASendLockExpired?
    ensures BooksKept(c, a, Step(c, a).channel)
  {
    var d := Step(c, a).channel;
    var b := c.our.book;
    match a
    case ASendLockedTransfer(amount, expiration, h) =>
      var t := CreateLockedTransfer(c, amount, expiration, h).value;
      AddShape(b, t.bp, t.lock);
    case ASendUnlock(secret, h, block) =>
      var l := GetLock(b, h).value;
      RemoveShape(b, d.our.book.proof.value, l);
      if Listed(b) { RemoveListed(b, d.our.book.proof.value, l); }
    case ASendLockExpired(l) =>
      if Encode(l) in b.pending {
        RemoveShape(b, d.our.book.proof.value, l);
        if Listed(b) { RemoveListed(b, d.our.book.proof.value, l); }
      }
  }

  lemma ReceiveTransferBooks(c: Channel, a: Action)
    requires Shape(c.our.book) && Shape(c.partner.book) && Step(c, a).Next? && a.AReceiveLockedTransfer?
    ensures BooksKept(c, a, Step(c, a).channel)
  {
    if a.matches && CheckLockedTransfer(c, c.partner, c.our, a.bp, a.lock).Some? {
      AddShape(c.partner.book, a.bp, a.lock);
    }
  }

  lemma ReceiveUnlockBooks(c: Channel, a: Action)
    requires Shape(c.our.book) && Shape(c.partner.book) && Step(c, a).Next? && a.AReceiveUnlock?
    ensures BooksKept(c, a, Step(c, a).channel)
  {
    var b := c.partner.book;
    if CheckUnlock(c, c.partner, a.bp, Sha256(a.secret)).Some? {
      var l := GetLock(b, Sha256(a.secret)).value;
      RemoveShape(b, a.bp, l);
      if Listed(b) { RemoveListed(b, a.bp, l); }
    }
  }

  lemma ReceiveExpiredBooks(c: Channel, a: Action)
    requires Shape(c.our.book) && Shape(c.partner.book) && Step(c, a).Next? && a.AReceiveLockExpired?
    ensures BooksKept(c, a, Step(c, a).channel)
  {
    var b := c.partner.book;
    if CheckLockExpired(c, c.partner, c.our, a.bp, a.secrethash, a.block).Some? {
      var l := GetLock(b, a.secrethash).value;
      RemoveShape(b, a.bp, l);
      if Listed(b) { RemoveListed(b, a.bp, l); }
    }
  }

  lemma RegisterBooks(c: Channel, a: Action)
    requires Shape(c.our.book) && Shape(c.partner.book) && (a.ARegisterSecret? || a.ARegisterOnchainSecret?)
    ensures Step(c, a).Next? && BooksKept(c, a, Step(c, a).channel)
  {
    if a.ARegisterSecret? {
      RegisterShape(c.our.book, a.secret, a.secrethash);
      RegisterShape(c.partner.book, a.secret, a.secrethash);
    } else {
      RegisterOnchainShape(c.our.book, a.secret, a.secrethash, a.revealBlock, a.deleteLock);
      RegisterOnchainShape(c.partner.book, a.secret, a.secrethash, a.revealBlock, a.deleteLock);
    }
  }

  lemma StepBooks(c: Channel, a: Action)
    requires Shape(c.our.book) && Shape(c.partner.book) && Step(c, a).Next?
    ensures BooksKept(c, a, Step(c, a).channel)
  {
    if !TouchesLocks(a) {
      OtherActionsQuiet(c, a);
    } else if a.ARegisterSecret? || a.ARegisterOnchainSecret? {
      RegisterBooks(c, a);
    } else if a.AReceiveLockedTransfer? {
      ReceiveTransferBooks(c, a);
    } else if a.AReceiveUnlock? {
      ReceiveUnlockBooks(c, a);
    } else if a.AReceiveLockExpired? {
      ReceiveExpiredBooks(c, a);
    } else {
      SendBooks(c, a);
    }
  }

  /* ---- balances ---- */

  /** An unlock, and a withdraw seen on-chain, must be within the balance. */
  ghost predicate FundsGuard(c: Channel, a: Action) {
    match a
    case ASendUnlock(_, h, _) => GetLock(c.our.book, h).Some? ==>
      GetLock(c.our.book, h).value.amount <= Balance(c.our, c.partner)
    case AReceiveUnlock(bp, secret) =>
      CheckUnlock(c, c.partner, bp, Sha256(secret)).Some? ==>
        GetLock(c.partner.book, Sha256(secret)).value.amount <= Balance(c.partner, c.our)
    case AChainWithdraw(p, total) =>
      && (p == c.our.address ==> total <= MaxWithdraw(c.our, c.partner))
      && (p != c.our.address && p == c.partner.address ==> total <= MaxWithdraw(c.partner, c.our))
    case _ => true
  }

  lemma LockStepFunds(c: Channel, a: Action)
    requires Step(c, a).Next? && TouchesLocks(a) && !a.ASendUnlock? && !a.AReceiveUnlock?
    ensures Funded(Step(c, a).channel) <==> Funded(c)
  {
  }

  lemma UnlockFundsIff(c: Channel, a: Action)
    requires Funded(c) && Step(c, a).Next? && (a.ASendUnlock? || a.AReceiveUnlock?)
    ensures Funded(Step(c, a).channel) <==> FundsGuard(c, a)
  {
  }

  lemma SameFundsFunded(c: Channel, d: Channel)
    requires SameFunds(c.our, d.our) && SameFunds(c.partner, d.partner)
    ensures Funded(c) <==> Funded(d)
  {
  }

  lemma WithdrawFunds(c: Channel, total: int, block: nat)
    requires Funded(c)
    ensures Funded(DoWithdraw(c, total, block).channel)
  {
    if ValidTotalWithdraw(c, total, false) {
      var w := Withdraw(total, InitialExpiration(block, c.revealTimeout), c.our.nonce + 1);
      RequestedFunds(c.our, c.partner, w, DoWithdraw(c, total, block).channel.our);
    }
  }

  lemma CoopSettleFunds(c: Channel, block: nat)
    requires Funded(c)
    ensures Funded(DoCoopSettle(c, block).channel)
  {
    var total := MaxWithdraw(c.our, c.partner);
    if ValidCoopSettle(c, total) {
      var w := Withdraw(total, InitialExpiration(block, c.revealTimeout), c.our.nonce + 1);
      RequestedFunds(c.our, c.partner, w, DoCoopSettle(c, block).channel.our);
    }
  }

  lemma AcceptFunds(c: Channel, m: WithdrawMessage)
    requires Funded(c)
    ensures AcceptCoopSettle(c, m).Next? && Funded(AcceptCoopSettle(c, m).channel)
  {
    if c.our.book.pending == [] && PriorToClosed(GetStatus(c)) {
      var w := Withdraw(MaxWithdraw(c.our, c.partner), m.expiration, c.our.nonce + 1);
      RequestedFunds(c.our, c.partner, w, AcceptCoopSettle(c, m).channel.our);
    }
  }

  lemma WithdrawRequestFunds(c: Channel, m: WithdrawMessage, coop: bool, block: nat)
    requires Funded(c) && DoReceiveWithdrawRequest(c, m, coop, block).Next?
    ensures Funded(DoReceiveWithdrawRequest(c, m, coop, block).channel)
  {
    if ValidWithdrawRequest(c, m) {
      var d := StoreRequest(c, m);
      RequestedFunds(c.partner, c.our, Withdraw(m.total, m.expiration, m.nonce), d.partner);
      AcceptFunds(d, m);
      RequestFunds(c, m, coop, block);
    }
  }

  lemma WithdrawExpiredFunds(c: Channel, m: WithdrawMessage, block: nat)
    requires Funded(c)
    ensures Funded(DoReceiveWithdrawExpired(c, m, block).channel)
  {
    DropOffchain(c.partner.withdraws, m.total);
  }

  lemma {:induction false} ExpireLoopTotal(e: End, ws: seq<Withdraw>, block: nat)
    ensures TotalWithdraw(ExpireLoop(e, ws, block).0) <= TotalWithdraw(e)
    decreases |ws|
  {
    if ws != [] && block >= SenderThreshold(ws[0].expiration) {
      DropOffchain(e.withdraws, ws[0].total);
      ExpireLoopTotal(ExpireOne(e, ws[0]), ws[1..], block);
    }
  }

  lemma BlockFunds(c: Channel, block: nat)
    requires Funded(c) && DoBlock(c, block).Next?
    ensures Funded(DoBlock(c, block).channel)
  {
    ExpireLoopTotal(c.our, c.our.withdraws, block);
    ExpireLoopFrame(c.our, c.our.withdraws, block);
  }

  lemma DepositFunds(c: Channel, participant: Address, balance: nat)
    requires Funded(c)
    ensures Funded(DoDeposit(c, participant, balance).channel)
  {
  }

  lemma ChainWithdrawFundsIff(c: Channel, participant: Address, total: nat)
    requires Funded(c)
    ensures Funded(DoChainWithdraw(c, participant, total).channel) <==>
      FundsGuard(c, AChainWithdraw(participant, total))
  {
    DropOffchain(c.our.withdraws, total);
    DropOffchain(c.partner.withdraws, total);
  }

  /** A step keeps both balances non-negative exactly under the guard. */
  lemma StepFundsIff(c: Channel, a: Action)
    requires Funded(c) && Step(c, a).Next?
    ensures Funded(Step(c, a).channel) <==> FundsGuard(c, a)
  {
    if a.ASendUnlock? || a.AReceiveUnlock? {
      UnlockFundsIff(c, a);
    } else if TouchesLocks(a) {
      LockStepFunds(c, a);
    } else if IsIdle(a) {
      IdleFunds(c, a);
      SameFundsFunded(c, Step(c, a).channel);
    } else {
      match a
      case AWithdraw(total, block) => WithdrawFunds(c, total, block);
      case ACoopSettle(block) => CoopSettleFunds(c, block);
      case AReceiveWithdrawRequest(m, coop, block) => WithdrawRequestFunds(c, m, coop, block);
      case AReceiveWithdrawConfirmation(m, block) =>
        ConfirmationFunds(c, m, block);
        SameFundsFunded(c, Step(c, a).channel);
      case AReceiveWithdrawExpired(m, block) => WithdrawExpiredFunds(c, m, block);
      case ABlock(block) => BlockFunds(c, block);
      case ADeposit(participant, balance) => DepositFunds(c, participant, balance);
      case AChainWithdraw(participant, total) => ChainWithdrawFundsIff(c, participant, total);
    }
  }

  /* ---- the order of our withdraws ---- */

  /** The partner's expiry message takes away the only coop-settle record. */
  ghost predicate ClearsLastRecord(c: Channel, m: WithdrawMessage, block: nat) {
    var found := FindWithdraw(c.partner.withdraws, m.total);
    && c.our.coopSettle.None? && c.partner.coopSettle.Some?
    && found.Some? && ValidWithdrawExpired(c, m, found.value, block)
    && c.partner.coopSettle.value.totalInitiator == found.value.total
    && c.partner.coopSettle.value.expiration == found.value.expiration
  }

  /** The last record may be cleared only while our totals are in order. */
  ghost predicate RecordGuard(c: Channel, a: Action) {
    a.AReceiveWithdrawExpired? && ClearsLastRecord(c, a.m, a.block) ==> Ordered(c.our.withdraws)
  }

  /** Our totals stay ascending, and in order where they have to be exactly under the guard. */
  ghost predicate OrderKept(c: Channel, a: Action, d: Channel) {
    Ascending(d.our.withdraws, -1) && (OrderedWithoutRecord(d) <==> RecordGuard(c, a))
  }

  ghost predicate InOrder(c: Channel) { Ascending(c.our.withdraws, -1) && OrderedWithoutRecord(c) }

  ghost predicate InOrderSoFar(c: Channel) { InOrder(c) && Funded(c) }

  ghost predicate LeavesRecords(a: Action) {
    || TouchesLocks(a) || a.AClose? || a.AWithdraw? || a.ASetRevealTimeout?
    || (!IsRequest(a) && !a.ABlock?)
  }

  lemma LockStepRecords(c: Channel, a: Action)
    requires Step(c, a).Next? && TouchesLocks(a)
    ensures Step(c, a).channel.our.coopSettle == c.our.coopSettle
    ensures Step(c, a).channel.partner.coopSettle == c.partner.coopSettle
  {
  }

  lemma RequestRecords(c: Channel, a: Action)
    requires Step(c, a).Next? && (a.AClose? || a.AWithdraw? || a.ASetRevealTimeout?)
    ensures Step(c, a).channel.our.coopSettle == c.our.coopSettle
    ensures Step(c, a).channel.partner.coopSettle == c.partner.coopSettle
  {
  }

  lemma ChainRecords(c: Channel, a: Action)
    requires Step(c, a).Next? && !TouchesLocks(a) && !IsRequest(a) && !a.ABlock?
    ensures Step(c, a).channel.our.coopSettle == c.our.coopSettle
    ensures Step(c, a).channel.partner.coopSettle == c.partner.coopSettle
  {
  }

  lemma PlainStepOrder(c: Channel, a: Action)
    requires InOrder(c) && Step(c, a).Next? && LeavesRecords(a)
    ensures OrderKept(c, a, Step(c, a).channel)
  {
    if TouchesLocks(a) {
      LockStepRecords(c, a);
    } else if IsRequest(a) {
      RequestRecords(c, a);
    } else {
      ChainRecords(c, a);
    }
    if !MovesOurWithdraws(a) {
      OurWithdrawsFrame(c, a);
    } else if a.AWithdraw? {
      WithdrawAscends(c, a.total, a.block);
    } else {
      DropAscending(c.our.withdraws, -1, a.withdrawn);
      if Ordered(c.our.withdraws) { DropAscending(c.our.withdraws, 0, a.withdrawn); }
    }
  }

  lemma WithdrawAscends(c: Channel, total: int, block: nat)
    requires Ascending(c.our.withdraws, -1)
    ensures Ascending(DoWithdraw(c, total, block).channel.our.withdraws, -1)
    ensures Ordered(c.our.withdraws) ==> Ordered(DoWithdraw(c, total, block).channel.our.withdraws)
  {
    if ValidTotalWithdraw(c, total, false) {
      LargestGoesLast(c.our.withdraws, total);
      PutAscendingIff(c.our.withdraws, -1, Withdraw(total, InitialExpiration(block, c.revealTimeout), c.our.nonce + 1));
    }
    if Ordered(c.our.withdraws) { WithdrawOrdered(c, total, block); }
  }

  lemma CoopSettleOrder(c: Channel, block: nat)
    requires InOrderSoFar(c)
    ensures OrderKept(c, ACoopSettle(block), DoCoopSettle(c, block).channel)
  {
    var total := MaxWithdraw(c.our, c.partner);
    if ValidCoopSettle(c, total) {
      LargestGoesLast(c.our.withdraws, total);
      PutAscendingIff(c.our.withdraws, -1, Withdraw(total, InitialExpiration(block, c.revealTimeout), c.our.nonce + 1));
    }
  }

  lemma AcceptOrder(c: Channel, m: WithdrawMessage)
    requires InOrderSoFar(c)
    ensures AcceptCoopSettle(c, m).Next?
    ensures var d := AcceptCoopSettle(c, m).channel; Ascending(d.our.withdraws, -1) && OrderedWithoutRecord(d)
  {
    if c.our.book.pending == [] && PriorToClosed(GetStatus(c)) {
      var total := MaxWithdraw(c.our, c.partner);
      LargestGoesLast(c.our.withdraws, total);
      PutAscendingIff(c.our.withdraws, -1, Withdraw(total, m.expiration, c.our.nonce + 1));
    }
  }

  lemma WithdrawRequestOrder(c: Channel, m: WithdrawMessage, coop: bool, block: nat)
    requires InOrderSoFar(c) && DoReceiveWithdrawRequest(c, m, coop, block).Next?
    ensures OrderKept(c, AReceiveWithdrawRequest(m, coop, block), DoReceiveWithdrawRequest(c, m, coop, block).channel)
  {
    if ValidWithdrawRequest(c, m) {
      var d := StoreRequest(c, m);
      RequestedFunds(c.partner, c.our, Withdraw(m.total, m.expiration, m.nonce), d.partner);
      AcceptOrder(d, m);
    }
  }

  lemma ConfirmationOrder(c: Channel, m: WithdrawMessage, block: nat)
    requires InOrder(c) && DoReceiveWithdrawConfirmation(c, m, block).Next?
    ensures OrderKept(c, AReceiveWithdrawConfirmation(m, block), DoReceiveWithdrawConfirmation(c, m, block).channel)
  {
  }

  lemma WithdrawExpiredOrderIff(c: Channel, m: WithdrawMessage, block: nat)
    requires InOrder(c)
    ensures OrderKept(c, AReceiveWithdrawExpired(m, block), DoReceiveWithdrawExpired(c, m, block).channel)
  {
  }

  lemma TailIsOrdered(ws: seq<Withdraw>, k: nat)
    requires Ascending(ws, -1) && 0 < k <= |ws|
    ensures Ordered(ws[k..])
  {
    assert forall i :: 0 <= i < |ws| - k ==> ws[k..][i] == ws[k + i] && ws[0].total < ws[k + i].total;
  }

  /** A loop that expires anything leaves only positive totals. */
  lemma ExpireLoopOrder(e: End, block: nat)
    requires Ascending(e.withdraws, -1)
    ensures ExpireLoop(e, e.withdraws, block).0 == e || Ordered(ExpireLoop(e, e.withdraws, block).0.withdraws)
  {
    var k := ExpiredPrefix(e.withdraws, block);
    if k > 0 {
      LoopExpiresPrefixState(e, block);
      TailIsOrdered(e.withdraws, k);
    }
  }

  lemma BlockOrder(c: Channel, block: nat)
    requires InOrder(c) && DoBlock(c, block).Next?
    ensures OrderKept(c, ABlock(block), DoBlock(c, block).channel)
  {
    ExpireLoopAscending(c.our, -1, block);
    ExpireLoopOrder(c.our, block);
  }

  lemma StepOrderIff(c: Channel, a: Action)
    requires InOrderSoFar(c) && Step(c, a).Next?
    ensures OrderKept(c, a, Step(c, a).channel)
  {
    if LeavesRecords(a) {
      PlainStepOrder(c, a);
    } else {
      match a
      case ACoopSettle(block) => CoopSettleOrder(c, block);
      case AReceiveWithdrawRequest(m, coop, block) => WithdrawRequestOrder(c, m, coop, block);
      case AReceiveWithdrawConfirmation(m, block) => ConfirmationOrder(c, m, block);
      case AReceiveWithdrawExpired(m, block) => WithdrawExpiredOrderIff(c, m, block);
      case ABlock(block) => BlockOrder(c, block);
    }
  }

  /* ---- the check over runs ---- */

  /** What a caller can see before a step about the check that follows it. */
  ghost predicate SaneGuard(c: Channel, a: Action) { ExpiryGuard(c, a) && FundsGuard(c, a) && RecordGuard(c, a) }

  /**
   From a channel that passes `sanity_check`, a step leads to one that passes it
   exactly when an unlock or a withdraw seen on-chain is within the balance, no
   lock claimed on-chain is expired, and the last coop-settle record is cleared
   only while our totals are in order.
   */
  lemma StepKeepsSaneIff(c: Channel, a: Action)
    requires Shaped(c) && SanityCheck(c) && Step(c, a).Next?
    ensures Shaped(Step(c, a).channel)
    ensures SanityCheck(Step(c, a).channel) <==> SaneGuard(c, a)
  {
    ShapedSaneIff(c);
    StepBooks(c, a);
    StepFundsIff(c, a);
    StepOrderIff(c, a);
    ShapedSaneIff(Step(c, a).channel);
  }

  ghost predicate SaneChannel(c: Channel) { Shaped(c) && SanityCheck(c) }

  ghost predicate KeepsSane(c: Channel, d: Channel) { SaneChannel(c) ==> SaneChannel(d) }

  lemma {:induction false} SaneAlong(states: seq<Channel>, n: nat)
    requires n < |states| && SaneChannel(states[0]) && forall k :: 0 <= k < n ==> KeepsSane(states[k], states[k + 1])
    ensures SaneChannel(states[n])
  {
    if n > 0 {
      SaneAlong(states, n - 1);
      assert KeepsSane(states[n - 1], states[n - 1 + 1]);
    }
  }

  lemma GuardedStepKeepsSane(r: Run, i: nat)
    requires IsRun(r) && i < |r.actions| && SaneGuard(r.states[i], r.actions[i])
    ensures KeepsSane(r.states[i], r.states[i + 1])
  {
    assert StepAt(r, i);
    if SaneChannel(r.states[i]) { StepKeepsSaneIff(r.states[i], r.actions[i]); }
  }

  ghost predicate ShapeKept(c: Channel, d: Channel) { SaneChannel(c) ==> Shaped(d) }

  lemma StepKeepsShape(r: Run, i: nat)
    requires IsRun(r) && i < |r.actions|
    ensures ShapeKept(r.states[i], r.states[i + 1])
  {
    assert StepAt(r, i);
    if SaneChannel(r.states[i]) { StepKeepsSaneIff(r.states[i], r.actions[i]); }
  }

  lemma {:induction false} ShapeAlong(states: seq<Channel>, n: nat)
    requires n < |states| && Shaped(states[0]) && forall k :: 0 <= k < n ==> SanityCheck(states[k])
    requires forall k :: 0 <= k < n ==> ShapeKept(states[k], states[k + 1])
    ensures Shaped(states[n])
  {
    if n > 0 {
      ShapeAlong(states, n - 1);
      assert ShapeKept(states[n - 1], states[n - 1 + 1]);
    }
  }

  lemma SaneRunIsGuarded(r: Run, i: nat)
    requires IsRun(r) && SaneChannel(r.states[0]) && i < |r.actions|
    requires forall n :: 0 <= n < |r.states| ==> SanityCheck(r.states[n])
    ensures SaneGuard(r.states[i], r.actions[i])
  {
    forall k | 0 <= k < |r.actions| ensures ShapeKept(r.states[k], r.states[k + 1]) { StepKeepsShape(r, k); }
    ShapeAlong(r.states, i);
    assert StepAt(r, i);
    StepKeepsSaneIff(r.states[i], r.actions[i]);
  }

  /** No assertion of `sanity_check` fails in any state of a run exactly when every step of it is guarded. */
  lemma RunIsSaneIff(r: Run)
    requires IsRun(r) && SaneChannel(r.states[0])
    ensures (forall n :: 0 <= n < |r.states| ==> SanityCheck(r.states[n]))
       <==> (forall i :: 0 <= i < |r.actions| ==> SaneGuard(r.states[i], r.actions[i]))
  {
    if forall i :: 0 <= i < |r.actions| ==> SaneGuard(r.states[i], r.actions[i]) {
      forall k | 0 <= k < |r.actions| ensures KeepsSane(r.states[k], r.states[k + 1]) { GuardedStepKeepsSane(r, k); }
      forall n | 0 <= n < |r.states| ensures SanityCheck(r.states[n]) { SaneAlong(r.states, n); }
    }
    if forall n :: 0 <= n < |r.states| ==> SanityCheck(r.states[n]) {
      forall i | 0 <= i < |r.actions| ensures SaneGuard(r.states[i], r.actions[i]) { SaneRunIsGuarded(r, i); }
    }
  }
}
