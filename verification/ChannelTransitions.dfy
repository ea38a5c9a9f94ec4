/**
 What each operation of `raiden_common/transfer/channel.py` does to a channel,
 as functions on values.  The in-place methods of `NettingChannel.dfy` are
 proved against these functions, and the laws of the channel are proved about
 them.  `Raised` stands for a failed assertion or a constructor that rejects its
 arguments: the state change is then rolled back by the caller.
 */
module ChannelTransitions {
  import opened Options
  import opened LockCodec
  import opened ChannelState

  datatype Event =
    | SendLockedTransfer(bp: BalanceProof, lock: Lock)
    | SendUnlock(bp: BalanceProof, secret: Secret)
    | SendLockExpired(bp: BalanceProof, secrethash: SecretHash)
    | SendWithdrawRequest(total: int, nonce: nat, expiration: int, coopSettle: bool)
    | SendWithdrawConfirmation(total: int, nonce: nat, expiration: int)
    | SendWithdrawExpired(total: int, nonce: nat, expiration: int)
    | SendProcessed
    | ContractClose(proof: Option<BalanceProof>)
    | ContractUpdateTransfer(expiration: int, bp: BalanceProof)
    | ContractSettle
    | ContractBatchUnlock(sender: Address)
    | ContractWithdraw(total: int, expiration: int)
    | ContractCoopSettle(ourTotal: int, partnerTotal: int, expiration: int)
    | Invalid

  datatype Outcome =
    | Raised
    | Next(channel: Channel, events: seq<Event>)
    | Removed(events: seq<Event>)

  /** The checks of `BalanceProofUnsignedState.__post_init__` and `hash_balance_data`. */
  function NewProof(nonce: nat, transferred: int, locked: int, locksroot: Digest, id: CanonicalId)
    : Option<BalanceProof>
  {
    if && 0 < nonce <= UINT64_MAX
       && 0 <= transferred <= UINT256_MAX
       && 0 <= locked <= UINT256_MAX
       && id.channelId <= UINT256_MAX
    then Some(BalanceProof(nonce, transferred, locked, locksroot, id, None))
    else None
  }

  /* ---- operations on one end ---- */

  /** Installs a book whose balance proof is `bp`, and the nonce of that proof. */
  function WithBook(e: End, bp: BalanceProof, book: Book): End {
    e.(book := book, nonce := bp.nonce)
  }

  function WithNonce(e: End, nonce: nat): End { e.(nonce := nonce) }

  function WithCoopSettle(e: End, s: CoopSettle): End { e.(coopSettle := Some(s)) }

  function WithLocksroot(e: End, locksroot: Digest): End { e.(onchainLocksroot := locksroot) }

  function WithProof(b: Book, bp: BalanceProof, pending: seq<EncodedLock>): Book {
    b.(pending := pending, proof := Some(bp))
  }

  function IndexLock(b: Book, l: Lock): Book { b.(locked := b.locked[l.secrethash := l]) }

  /** `_del_unclaimed_lock`. */
  function DelUnclaimed(b: Book, h: SecretHash): Book {
    b.(locked := b.locked - {h}, unlocked := b.unlocked - {h})
  }

  /** `_del_lock`, for a pending lock. */
  function DelLock(b: Book, h: SecretHash): Book {
    b.(locked := b.locked - {h}, unlocked := b.unlocked - {h}, onchain := b.onchain - {h})
  }

  /** `register_secret_endstate`. */
  function RegisterSecretBook(b: Book, secret: Secret, h: SecretHash): Book {
    if h in b.locked then
      b.(locked := b.locked - {h}, unlocked := b.unlocked[h := PartialProof(b.locked[h], secret)])
    else b
  }

  /** The lock that an on-chain secret would claim, if it is in time. */
  function ClaimableLock(b: Book, h: SecretHash, revealBlock: nat): Option<Lock> {
    var lock :=
      if h in b.unlocked then Some(b.unlocked[h].lock)
      else if h in b.locked then Some(b.locked[h])
      else None;
    if lock.Some? && lock.value.expiration >= revealBlock then lock else None
  }

  /** `register_onchain_secret_endstate`. */
  function RegisterOnchainBook(b: Book, secret: Secret, h: SecretHash, revealBlock: nat, deleteLock: bool): Book {
    var lock := ClaimableLock(b, h, revealBlock);
    if lock.None? then b else
    var kept := if deleteLock then DelLock(b, h) else b;
    kept.(onchain := kept.onchain[h := PartialProof(lock.value, secret)])
  }

  function RegisterSecretEnd(e: End, secret: Secret, h: SecretHash): End {
    e.(book := RegisterSecretBook(e.book, secret, h))
  }

  function RegisterOnchainEnd(e: End, secret: Secret, h: SecretHash, revealBlock: nat, deleteLock: bool): End {
    e.(book := RegisterOnchainBook(e.book, secret, h, revealBlock, deleteLock))
  }

  /** One round of the expiry loop: the withdraw moves to the expired ones and the nonce grows. */
  function ExpireOne(e: End, w: Withdraw): End {
    var isCoop :=
      && e.coopSettle.Some?
      && e.coopSettle.value.totalInitiator == w.total && e.coopSettle.value.expiration == w.expiration;
    e.(
      nonce := e.nonce + 1,
      coopSettle := if isCoop then None else e.coopSettle,
      withdrawsExpired := e.withdrawsExpired + [w],
      withdraws := DropWithdraw(e.withdraws, w.total))
  }

  /** The loop of `events_for_expired_withdraws` over the listed withdraws. */
  function ExpireLoop(e: End, ws: seq<Withdraw>, block: nat): (End, seq<Event>)
    decreases |ws|
  {
    if ws == [] || block < SenderThreshold(ws[0].expiration) then (e, []) else
    var next := ExpireOne(e, ws[0]);
    var rest := ExpireLoop(next, ws[1..], block);
    (rest.0, [SendWithdrawExpired(ws[0].total, next.nonce, ws[0].expiration)] + rest.1)
  }

  /** `register_offchain_secret`. */
  function DoRegisterSecret(c: Channel, secret: Secret, h: SecretHash): Outcome {
    Next(c.(our := RegisterSecretEnd(c.our, secret, h), partner := RegisterSecretEnd(c.partner, secret, h)), [])
  }

  /** `register_onchain_secret`. */
  function DoRegisterOnchainSecret(c: Channel, secret: Secret, h: SecretHash, revealBlock: nat,
                                   deleteLock: bool): Outcome
  {
    Next(c.(our := RegisterOnchainEnd(c.our, secret, h, revealBlock, deleteLock),
            partner := RegisterOnchainEnd(c.partner, secret, h, revealBlock, deleteLock)), [])
  }

  /* ---- sending ---- */

  datatype Transfer = Transfer(bp: BalanceProof, lock: Lock, pending: seq<EncodedLock>)

  /** `create_sendlockedtransfer`; `None` where it raises. */
  ghost function CreateLockedTransfer(c: Channel, amount: int, expiration: int, h: SecretHash)
    : Option<Transfer>
  {
    var lock := HashTimeLock(amount, expiration, h);
    if amount > Distributable(c.our, c.partner) || GetStatus(c) != Opened || !IsValidLock(lock) then None else
    var pending := LocksWith(c.our.book.pending, lock);
    if pending.None? || Transferred(c.our.book) + amount > UINT256_MAX then None else
    var bp := NewProof(
      c.our.nonce + 1, Transferred(c.our.book), AmountLocked(c.our.book) + amount, Locksroot(pending.value), c.id);
    if bp.None? then None else Some(Transfer(bp.value, lock, pending.value))
  }

  /** `send_lockedtransfer`. */
  ghost function DoSendLockedTransfer(c: Channel, amount: int, expiration: int, h: SecretHash): Outcome {
    var t := CreateLockedTransfer(c, amount, expiration, h);
    if t.None? then Raised else
    var book := IndexLock(WithProof(c.our.book, t.value.bp, t.value.pending), t.value.lock);
    Next(c.(our := WithBook(c.our, t.value.bp, book)),
         [SendLockedTransfer(t.value.bp, t.value.lock)])
  }

  /** `create_unlock`; `None` where it raises. */
  ghost function UnlockProof(c: Channel, l: Lock, block: nat): Option<Transfer> {
    if !IsLockPending(c.our.book, l.secrethash) || GetStatus(c) != Opened then None else
    var pending := LocksWithout(c.our.book.pending, Encode(l));
    if IsLockExpired(c.our.book, l, block, l.expiration) || c.our.book.proof.None? || pending.None? then None else
    var bp := NewProof(
      c.our.nonce + 1, l.amount + Transferred(c.our.book), AmountLocked(c.our.book) - l.amount,
      Locksroot(pending.value), c.id);
    if bp.None? then None else Some(Transfer(bp.value, l, pending.value))
  }

  /** `send_unlock`. */
  ghost function DoSendUnlock(c: Channel, secret: Secret, h: SecretHash, block: nat): Outcome {
    var lock := GetLock(c.our.book, h);
    if lock.None? then Raised else
    var t := UnlockProof(c, lock.value, block);
    if t.None? then Raised else
    var book := DelLock(WithProof(c.our.book, t.value.bp, t.value.pending), lock.value.secrethash);
    Next(c.(our := WithBook(c.our, t.value.bp, book)),
         [SendUnlock(t.value.bp, secret)])
  }

  /** `send_lock_expired` with `create_sendexpiredlock`. */
  ghost function DoSendLockExpired(c: Channel, l: Lock): Outcome {
    if GetStatus(c) != Opened || c.our.book.proof.None? then Raised else
    var pending := LocksWithout(c.our.book.pending, Encode(l));
    if pending.None? then Next(c, []) else
    var bp := NewProof(
      c.our.nonce + 1, Transferred(c.our.book), AmountLocked(c.our.book) - l.amount, Locksroot(pending.value), c.id);
    if bp.None? then Raised else
    var book := DelUnclaimed(WithProof(c.our.book, bp.value, pending.value), l.secrethash);
    Next(c.(our := WithBook(c.our, bp.value, book)),
         [SendLockExpired(bp.value, l.secrethash)])
  }

  /** `events_for_close`. */
  function DoClose(c: Channel, channelId: nat, block: nat): Outcome {
    if channelId != c.id.channelId then Raised
    else if !PriorToClosed(GetStatus(c)) then Next(c, [])
    else Next(c.(closeTx := Some(TxStatus(Some(block), None, None))), [ContractClose(c.partner.book.proof)])
  }

  /** `send_withdraw_request`. */
  function RequestWithdraw(c: Channel, total: int, expiration: int, coopSettle: bool): (Channel, seq<Event>) {
    if !PriorToClosed(GetStatus(c)) then (c, []) else
    var nonce := c.our.nonce + 1;
    var our := c.our.(
      nonce := nonce,
      withdraws := PutWithdraw(c.our.withdraws, Withdraw(total, expiration, nonce)));
    (c.(our := our), [SendWithdrawRequest(total, nonce, expiration, coopSettle)])
  }

  /** `_handle_action_withdraw`. */
  function DoWithdraw(c: Channel, total: int, block: nat): Outcome {
    if !ValidTotalWithdraw(c, total, false) then Next(c, [Invalid]) else
    var r := RequestWithdraw(c, total, InitialExpiration(block, c.revealTimeout), false);
    Next(r.0, r.1)
  }

  /** `_handle_action_coop_settle`. */
  function DoCoopSettle(c: Channel, block: nat): Outcome {
    var ourMax := MaxWithdraw(c.our, c.partner);
    var partnerMax := MaxWithdraw(c.partner, c.our);
    if !ValidCoopSettle(c, ourMax) then Next(c, [Invalid]) else
    var expiration := InitialExpiration(block, c.revealTimeout);
    var our := WithCoopSettle(c.our, CoopSettle(ourMax, partnerMax, expiration, false, false, None));
    var r := RequestWithdraw(c.(our := our), ourMax, expiration, true);
    Next(r.0, r.1)
  }

  /** `_handle_action_set_reveal_timeout`. */
  function DoSetRevealTimeout(c: Channel, timeout: int): Outcome {
    if timeout >= 7 && c.settleTimeout >= timeout * 2 then Next(c.(revealTimeout := timeout), [])
    else Next(c, [Invalid])
  }

  /* ---- receiving ---- */

  /** `handle_receive_lockedtransfer`, and `handle_refundtransfer` when `matches` is its extra test. */
  ghost function DoReceiveLockedTransfer(c: Channel, bp: BalanceProof, l: Lock, matches: bool): Outcome {
    var pending := CheckLockedTransfer(c, c.partner, c.our, bp, l);
    if pending.None? || !matches then Next(c, [Invalid])
    else
      var book := IndexLock(WithProof(c.partner.book, bp, pending.value), l);
      Next(c.(partner := WithBook(c.partner, bp, book)), [SendProcessed])
  }

  /** `handle_unlock`. */
  ghost function DoReceiveUnlock(c: Channel, bp: BalanceProof, h: SecretHash): Outcome {
    var pending := CheckUnlock(c, c.partner, bp, h);
    if pending.None? then Next(c, [Invalid])
    else
      var book := DelLock(WithProof(c.partner.book, bp, pending.value), h);
      Next(c.(partner := WithBook(c.partner, bp, book)), [SendProcessed])
  }

  /** `handle_receive_lock_expired`. */
  ghost function DoReceiveLockExpired(c: Channel, bp: BalanceProof, h: SecretHash, block: nat): Outcome {
    var pending := CheckLockExpired(c, c.partner, c.our, bp, h, block);
    if pending.None? then Next(c, [Invalid])
    else
      var book := DelUnclaimed(WithProof(c.partner.book, bp, pending.value), h);
      Next(c.(partner := WithBook(c.partner, bp, book)), [SendProcessed])
  }

  /** `events_for_coop_settle` for the coop-settle this node initiated. */
  function TrySendCoopSettle(c: Channel, s: CoopSettle, block: nat): (Channel, seq<Event>) {
    if s.requestSigned && s.confirmationSigned && s.expiration >= block - c.revealTimeout then
      var sent := s.(transaction := Some(TxStatus(Some(block), None, None)));
      (c.(our := WithCoopSettle(c.our, sent)), [ContractCoopSettle(s.totalInitiator, s.totalPartner, s.expiration)])
    else
      (c.(our := WithCoopSettle(c.our, s)), [])
  }

  function Confirm(c: Channel, events: seq<Event>, m: WithdrawMessage): Outcome {
    var nonce := c.our.nonce + 1;
    Next(c.(our := WithNonce(c.our, nonce)), events + [SendWithdrawConfirmation(m.total, nonce, m.expiration)])
  }

  /** The partner's request, stored before the coop-settle tests are made. */
  function StoreRequest(c: Channel, m: WithdrawMessage): Channel {
    var partner := c.partner.(
      withdraws := PutWithdraw(c.partner.withdraws, Withdraw(m.total, m.expiration, m.nonce)),
      nonce := m.nonce);
    c.(partner := partner)
  }

  /** The partner answers the coop-settle this node initiated. */
  function AnswerOurCoopSettle(c: Channel, s: CoopSettle, m: WithdrawMessage, block: nat): Outcome {
    if s.expiration != m.expiration then Next(c, [Invalid])
    else if s.totalPartner != m.total then Raised
    else
      var r := TrySendCoopSettle(c, s.(requestSigned := true), block);
      Confirm(r.0, r.1, m)
  }

  /** The partner initiates a coop-settle. */
  function AcceptCoopSettle(c: Channel, m: WithdrawMessage): Outcome {
    if c.our.book.pending != [] then Next(c, [Invalid]) else
    var ourMax := MaxWithdraw(c.our, c.partner);
    var partner := WithCoopSettle(c.partner, CoopSettle(m.total, ourMax, m.expiration, true, false, None));
    // The request event is listed twice: the source extends the list by itself.
    var r := RequestWithdraw(c.(partner := partner), ourMax, m.expiration, false);
    Confirm(r.0, r.1 + r.1, m)
  }

  /** `_handle_receive_withdraw_request`. */
  function DoReceiveWithdrawRequest(c: Channel, m: WithdrawMessage, coopSettle: bool, block: nat): Outcome {
    if !ValidWithdrawRequest(c, m) then Next(c, [Invalid]) else
    var d := StoreRequest(c, m);
    if d.our.coopSettle.None? && !coopSettle then Confirm(d, [], m)
    else if MaxWithdraw(d.partner, d.our) != m.total || d.partner.book.pending != [] then Next(d, [Invalid])
    else if d.our.coopSettle.Some? then AnswerOurCoopSettle(d, d.our.coopSettle.value, m, block)
    else AcceptCoopSettle(d, m)
  }

  /** `_handle_receive_withdraw_confirmation`. */
  function DoReceiveWithdrawConfirmation(c: Channel, m: WithdrawMessage, block: nat): Outcome {
    if !ValidWithdrawConfirmation(c, m) then Next(c, [Invalid]) else
    var d := c.(partner := WithNonce(c.partner, m.nonce));
    if d.our.coopSettle.Some? then
      if d.partner.coopSettle.Some? then Raised else
      var r := TrySendCoopSettle(d, d.our.coopSettle.value.(confirmationSigned := true), block);
      Next(r.0, [SendProcessed] + r.1)
    else if d.partner.coopSettle.None? && m.expiration >= block - d.revealTimeout then
      Next(d, [SendProcessed, ContractWithdraw(m.total, m.expiration)])
    else
      Next(d, [SendProcessed])
  }

  /** `_handle_receive_withdraw_expired`. */
  function DoReceiveWithdrawExpired(c: Channel, m: WithdrawMessage, block: nat): Outcome {
    var found := FindWithdraw(c.partner.withdraws, m.total);
    if found.None? || !ValidWithdrawExpired(c, m, found.value, block) then Next(c, [Invalid]) else
    var w := found.value;
    var s := c.partner.coopSettle;
    var isCoop := s.Some? && s.value.totalInitiator == w.total && s.value.expiration == w.expiration;
    var partner := c.partner.(
      withdraws := DropWithdraw(c.partner.withdraws, w.total),
      nonce := m.nonce,
      coopSettle := if isCoop then None else s);
    Next(c.(partner := partner), [SendProcessed])
  }

  /* ---- blocks and on-chain events ---- */

  predicate Unfinished(t: TxStatus) { t.finished.None? || t.finished == Some(0) }

  /** `set_closed`, `set_settled` and `set_coop_settled`. */
  function Finish(t: Option<TxStatus>, block: nat): Option<TxStatus> {
    if t.None? then Some(TxStatus(None, Some(block), Some(Success)))
    else if Unfinished(t.value) then Some(t.value.(finished := Some(block), result := Some(Success)))
    else t
  }

  /** `_handle_block`. */
  function DoBlock(c: Channel, block: nat): Outcome {
    if GetStatus(c) == Opened then
      var r := ExpireLoop(c.our, c.our.withdraws, block);
      Next(c.(our := r.0), r.1)
    else if GetStatus(c) == Closed then
      if Unfinished(c.closeTx.value) then Raised
      else if block > c.closeTx.value.finished.value + c.settleTimeout then
        Next(c.(settleTx := Some(TxStatus(Some(block), None, None))), [ContractSettle])
      else Next(c, [])
    else Next(c, [])
  }

  /** `_handle_channel_closed`. */
  function DoClosed(c: Channel, channelId: nat, from: Address, block: nat): Outcome {
    if channelId != c.id.channelId || !PriorToClosed(GetStatus(c)) then Next(c, []) else
    var d := c.(closeTx := Finish(c.closeTx, block));
    if from != c.our.address && c.partner.book.proof.Some? && c.updateTx.None? then
      Next(d.(updateTx := Some(TxStatus(Some(block), None, None))),
           [ContractUpdateTransfer(block + c.settleTimeout, c.partner.book.proof.value)])
    else Next(d, [])
  }

  /** `_handle_channel_updated_transfer`. */
  function DoUpdatedTransfer(c: Channel, channelId: nat, block: nat): Outcome {
    if channelId != c.id.channelId then Next(c, [])
    else Next(c.(updateTx := Some(TxStatus(None, Some(block), Some(Success)))), [])
  }

  datatype SettleInfo = SettleInfo(
    channelId: nat,
    ourLocksroot: Digest,
    ourTransferred: nat,
    partnerLocksroot: Digest,
    partnerTransferred: nat,
    block: nat)

  /** `_handle_channel_settled`. */
  function DoSettled(c: Channel, i: SettleInfo): Outcome {
    if i.channelId != c.id.channelId then Next(c, []) else
    // A recorded coop-settle needs both locksroots empty, so the channel it
    // updates is the one that is dropped here.
    if i.ourLocksroot == NoLocksRoot() && i.partnerLocksroot == NoLocksRoot() then Removed([]) else
    var our := WithLocksroot(c.our, i.ourLocksroot);
    var partner := WithLocksroot(c.partner, i.partnerLocksroot);
    Next(c.(our := our, partner := partner, settleTx := Finish(c.settleTx, i.block)),
         [ContractBatchUnlock(c.partner.address)])
  }

  /** `update_contract_balance`. */
  function Deposit(e: End, balance: nat): End {
    if balance > e.contractBalance then e.(contractBalance := balance) else e
  }

  /** `_handle_channel_deposit`. */
  function DoDeposit(c: Channel, participant: Address, balance: nat): Outcome {
    if participant == c.our.address then Next(c.(our := Deposit(c.our, balance)), [])
    else if participant == c.partner.address then Next(c.(partner := Deposit(c.partner, balance)), [])
    else Next(c, [])
  }

  function WithdrawnOnchain(e: End, total: nat): End {
    e.(withdraws := DropWithdraw(e.withdraws, total), onchainWithdraw := total)
  }

  /** `_handle_channel_withdraw`. */
  function DoChainWithdraw(c: Channel, participant: Address, total: nat): Outcome {
    if participant == c.our.address then Next(c.(our := WithdrawnOnchain(c.our, total)), [])
    else if participant == c.partner.address then Next(c.(partner := WithdrawnOnchain(c.partner, total)), [])
    else Next(c, [])
  }

  function ClearLocksroot(e: End, sender: Address): End {
    if sender == e.address then WithLocksroot(e, NoLocksRoot()) else e
  }

  /** `_handle_channel_batch_unlock`; the two ends have different addresses. */
  function DoBatchUnlock(c: Channel, sender: Address): Outcome {
    if GetStatus(c) != Settled then Next(c, []) else
    var our := ClearLocksroot(c.our, sender);
    var partner := if sender == c.our.address then c.partner else ClearLocksroot(c.partner, sender);
    if our.onchainLocksroot == NoLocksRoot() && partner.onchainLocksroot == NoLocksRoot() then
      Removed([])
    else Next(c.(our := our, partner := partner), [])
  }

  /* ---- one step of a node ---- */

  datatype Action =
    | ASendLockedTransfer(amount: int, expiration: int, secrethash: SecretHash)
    | ASendUnlock(secret: Secret, secrethash: SecretHash, block: nat)
    | ASendLockExpired(lock: Lock)
    | ARegisterSecret(secret: Secret, secrethash: SecretHash)
    | ARegisterOnchainSecret(secret: Secret, secrethash: SecretHash, revealBlock: nat, deleteLock: bool)
    | AReceiveLockedTransfer(bp: BalanceProof, lock: Lock, matches: bool)
    | AReceiveUnlock(bp: BalanceProof, secret: Secret)
    | AReceiveLockExpired(bp: BalanceProof, secrethash: SecretHash, block: nat)
    | AClose(channelId: nat, block: nat)
    | AWithdraw(total: int, block: nat)
    | ACoopSettle(block: nat)
    | ASetRevealTimeout(timeout: int)
    | AReceiveWithdrawRequest(m: WithdrawMessage, coopSettle: bool, block: nat)
    | AReceiveWithdrawConfirmation(m: WithdrawMessage, block: nat)
    | AReceiveWithdrawExpired(m: WithdrawMessage, block: nat)
    | ABlock(block: nat)
    | AClosed(channelId: nat, from: Address, block: nat)
    | AUpdatedTransfer(channelId: nat, block: nat)
    | ASettled(info: SettleInfo)
    | ADeposit(participant: Address, balance: nat)
    | AChainWithdraw(participant: Address, withdrawn: nat)
    | ABatchUnlock(sender: Address)

  predicate TouchesLocks(a: Action) {
    || a.ASendLockedTransfer? || a.ASendUnlock? || a.ASendLockExpired?
    || a.ARegisterSecret? || a.ARegisterOnchainSecret?
    || a.AReceiveLockedTransfer? || a.AReceiveUnlock? || a.AReceiveLockExpired?
  }

  /** What the user asks for, and the withdraw messages of the partner. */
  predicate IsRequest(a: Action) {
    || a.AClose? || a.AWithdraw? || a.ACoopSettle? || a.ASetRevealTimeout?
    || a.AReceiveWithdrawRequest? || a.AReceiveWithdrawConfirmation? || a.AReceiveWithdrawExpired?
  }

  ghost function LockStep(c: Channel, a: Action): Outcome
    requires TouchesLocks(a)
  {
    match a
    case ASendLockedTransfer(amount, expiration, h) => DoSendLockedTransfer(c, amount, expiration, h)
    case ASendUnlock(secret, h, block) => DoSendUnlock(c, secret, h, block)
    case ASendLockExpired(l) => DoSendLockExpired(c, l)
    case ARegisterSecret(secret, h) => DoRegisterSecret(c, secret, h)
    case ARegisterOnchainSecret(secret, h, block, del) => DoRegisterOnchainSecret(c, secret, h, block, del)
    case AReceiveLockedTransfer(bp, l, matches) => DoReceiveLockedTransfer(c, bp, l, matches)
    case AReceiveUnlock(bp, secret) => DoReceiveUnlock(c, bp, Sha256(secret))
    case AReceiveLockExpired(bp, h, block) => DoReceiveLockExpired(c, bp, h, block)
  }

  function RequestStep(c: Channel, a: Action): Outcome
    requires IsRequest(a)
  {
    match a
    case AClose(id, block) => DoClose(c, id, block)
    case AWithdraw(total, block) => DoWithdraw(c, total, block)
    case ACoopSettle(block) => DoCoopSettle(c, block)
    case ASetRevealTimeout(timeout) => DoSetRevealTimeout(c, timeout)
    case AReceiveWithdrawRequest(m, coop, block) => DoReceiveWithdrawRequest(c, m, coop, block)
    case AReceiveWithdrawConfirmation(m, block) => DoReceiveWithdrawConfirmation(c, m, block)
    case AReceiveWithdrawExpired(m, block) => DoReceiveWithdrawExpired(c, m, block)
  }

  function ChainStep(c: Channel, a: Action): Outcome
    requires !TouchesLocks(a) && !IsRequest(a)
  {
    match a
    case ABlock(block) => DoBlock(c, block)
    case AClosed(id, from, block) => DoClosed(c, id, from, block)
    case AUpdatedTransfer(id, block) => DoUpdatedTransfer(c, id, block)
    case ASettled(info) => DoSettled(c, info)
    case ADeposit(p, balance) => DoDeposit(c, p, balance)
    case AChainWithdraw(p, total) => DoChainWithdraw(c, p, total)
    case ABatchUnlock(sender) => DoBatchUnlock(c, sender)
  }

  ghost function Step(c: Channel, a: Action): Outcome {
    if TouchesLocks(a) then LockStep(c, a)
    else if IsRequest(a) then RequestStep(c, a)
    else ChainStep(c, a)
  }
}
