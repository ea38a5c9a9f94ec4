/**
 The state of a payment channel and the questions asked about it
 (`raiden_common/transfer/state.py` and the pure part of
 `raiden_common/transfer/channel.py`).

 A channel has two ends.  Each end keeps its latest balance proof, the ordered
 list of encoded pending locks and three dictionaries that index those locks by
 what is known about their secret.
 */
module ChannelState {
  import opened Options
  import opened Integers
  import opened LockCodec

  type Address = seq<Byte>
  type Digest = seq<Byte>
  type Secret = seq<Byte>
  type SecretHash = seq<Byte>

  const UINT64_MAX: nat := 0xFFFF_FFFF_FFFF_FFFF
  const MAXIMUM_PENDING_TRANSFERS: nat := 160
  const BLOCK_CONFIRMATIONS: nat := 5

  /** The two hash functions are left uninterpreted. */
  const Keccak: seq<Byte> -> Digest
  const Sha256: Secret -> SecretHash

  /** `LOCKSROOT_OF_NO_LOCKS`. */
  function NoLocksRoot(): Digest { Keccak([]) }

  datatype CanonicalId = CanonicalId(chainId: nat, tokenNetwork: Address, channelId: nat)

  /**
   A balance proof.  `signer` is the address that `recover` finds for the
   signature; an unsigned proof, or one whose recovery fails, has none.
   */
  datatype BalanceProof = BalanceProof(
    nonce: nat,
    transferred: nat,
    locked: nat,
    locksroot: Digest,
    id: CanonicalId,
    signer: Option<Address>)

  /** A lock together with its secret (`UnlockPartialProofState`). */
  datatype PartialProof = PartialProof(lock: Lock, secret: Secret)

  datatype Withdraw = Withdraw(total: int, expiration: int, nonce: nat)

  datatype CoopSettle = CoopSettle(
    totalInitiator: int,
    totalPartner: int,
    expiration: int,
    requestSigned: bool,
    confirmationSigned: bool,
    transaction: Option<TxStatus>)

  datatype TxResult = Success | Failure

  /** `TransactionExecutionStatus`. */
  datatype TxStatus = TxStatus(started: Option<nat>, finished: Option<nat>, result: Option<TxResult>)

  /**
   The part of an end that deals with locks: the three dictionaries, the pending
   list in order of insertion, and the latest balance proof.
   */
  datatype Book = Book(
    locked: map<SecretHash, Lock>,
    unlocked: map<SecretHash, PartialProof>,
    onchain: map<SecretHash, PartialProof>,
    pending: seq<EncodedLock>,
    proof: Option<BalanceProof>)

  /** One end of the channel; `withdraws` is a dictionary kept in insertion order. */
  datatype End = End(
    address: Address,
    contractBalance: nat,
    onchainWithdraw: nat,
    withdraws: seq<Withdraw>,
    withdrawsExpired: seq<Withdraw>,
    coopSettle: Option<CoopSettle>,
    book: Book,
    onchainLocksroot: Digest,
    nonce: nat)

  datatype Channel = Channel(
    id: CanonicalId,
    revealTimeout: int,
    settleTimeout: int,
    our: End,
    partner: End,
    closeTx: Option<TxStatus>,
    settleTx: Option<TxStatus>,
    updateTx: Option<TxStatus>)

  datatype Status = Opened | Closing | Closed | Settling | Settled | Unusable

  /* ---- expiration thresholds ---- */

  /** `get_safe_initial_expiration` with the default lock timeout. */
  function InitialExpiration(block: nat, revealTimeout: int): int {
    block + revealTimeout * 2 - 1
  }

  function SenderThreshold(expiration: int): int { expiration + BLOCK_CONFIRMATIONS * 2 }

  function ReceiverThreshold(expiration: int): int { expiration + BLOCK_CONFIRMATIONS }

  /* ---- locks ---- */

  predicate IsLockPending(b: Book, h: SecretHash) {
    h in b.locked || h in b.unlocked || h in b.onchain
  }

  /** `get_lock`. */
  function GetLock(b: Book, h: SecretHash): (r: Option<Lock>)
    ensures r.Some? <==> IsLockPending(b, h)
  {
    if h in b.locked then Some(b.locked[h])
    else if h in b.unlocked then Some(b.unlocked[h].lock)
    else if h in b.onchain then Some(b.onchain[h].lock)
    else None
  }

  /** `is_lock_expired`. */
  predicate IsLockExpired(b: Book, l: Lock, block: nat, threshold: int) {
    l.secrethash !in b.onchain && block >= threshold
  }

  function LockAmount(l: Lock): nat { l.amount }
  function ProofAmount(p: PartialProof): nat { p.lock.amount }

  /** The sum of the amounts of the values of a dictionary. */
  ghost function Sum<V>(m: map<SecretHash, V>, amount: V -> nat): nat
    decreases |m|
  {
    if m == map[] then 0 else
    var h :| h in m;
    amount(m[h]) + Sum(m - {h}, amount)
  }

  lemma {:induction false} SumWithout<V>(m: map<SecretHash, V>, amount: V -> nat, h: SecretHash)
    requires h in m
    ensures Sum(m, amount) == amount(m[h]) + Sum(m - {h}, amount)
    decreases |m|
  {
    var k :| k in m && Sum(m, amount) == amount(m[k]) + Sum(m - {k}, amount);
    if k != h {
      SumWithout(m - {k}, amount, h);
      SumWithout(m - {h}, amount, k);
      assert m - {k} - {h} == m - {h} - {k};
    }
  }

  lemma SumWith<V>(m: map<SecretHash, V>, amount: V -> nat, h: SecretHash, v: V)
    requires h !in m
    ensures Sum(m[h := v], amount) == Sum(m, amount) + amount(v)
  {
    SumWithout(m[h := v], amount, h);
    assert m[h := v] - {h} == m;
  }

  /** `get_amount_locked`. */
  ghost function AmountLocked(b: Book): nat {
    Sum(b.locked, LockAmount) + Sum(b.unlocked, ProofAmount) + Sum(b.onchain, ProofAmount)
  }

  /** `compute_locks_with`. */
  function LocksWith(pending: seq<EncodedLock>, l: Lock): Option<seq<EncodedLock>> {
    if Encode(l) in pending then None else Some(pending + [Encode(l)])
  }

  /** `list.remove`: drops the first occurrence. */
  function RemoveFirst<T(==)>(s: seq<T>, x: T): seq<T> {
    if s == [] then [] else if s[0] == x then s[1..] else [s[0]] + RemoveFirst(s[1..], x)
  }

  /** `compute_locks_without`. */
  function LocksWithout(pending: seq<EncodedLock>, x: EncodedLock): Option<seq<EncodedLock>> {
    if x in pending then Some(RemoveFirst(pending, x)) else None
  }

  /** `compute_locksroot`. */
  function Locksroot(pending: seq<EncodedLock>): Digest { Keccak(Join(pending)) }

  /* ---- balances ---- */

  function Transferred(b: Book): nat {
    if b.proof.Some? then b.proof.value.transferred else 0
  }

  /** The locked amount of `get_current_balanceproof`. */
  ghost function CurrentLocked(b: Book): nat {
    if b.proof.Some? then AmountLocked(b) else 0
  }

  /** `offchain_total_withdraw`: the largest pending total. */
  function OffchainWithdraw(ws: seq<Withdraw>): int {
    if ws == [] then 0
    else if |ws| == 1 then ws[0].total
    else Max(OffchainWithdraw(ws[..|ws| - 1]), ws[|ws| - 1].total)
  }

  function TotalWithdraw(e: End): int { Max(OffchainWithdraw(e.withdraws), e.onchainWithdraw) }

  /** `get_max_withdraw_amount`: the balance before withdraws are subtracted. */
  function MaxWithdraw(sender: End, receiver: End): int {
    sender.contractBalance - Transferred(sender.book) + Transferred(receiver.book)
  }

  /** `get_balance`. */
  function Balance(sender: End, receiver: End): int {
    MaxWithdraw(sender, receiver) - TotalWithdraw(sender)
  }

  /** `get_capacity`. */
  function Capacity(c: Channel): int {
    c.our.contractBalance - TotalWithdraw(c.our) + c.partner.contractBalance - TotalWithdraw(c.partner)
  }

  /** `get_distributable`. */
  ghost function Distributable(sender: End, receiver: End): int {
    var overflowLimit := Max(UINT256_MAX - Transferred(sender.book) - CurrentLocked(sender.book), 0);
    Min(overflowLimit, Balance(sender, receiver) - AmountLocked(sender.book))
  }

  /* ---- status ---- */

  function TxStage(t: TxStatus, done: Status, running: Status): Status {
    if t.result == Some(Success) then done
    else if t.finished.None? then running
    else Unusable
  }

  /** `get_status`. */
  function GetStatus(c: Channel): Status {
    if c.settleTx.Some? then TxStage(c.settleTx.value, Settled, Settling)
    else if c.closeTx.Some? then TxStage(c.closeTx.value, Closed, Closing)
    else Opened
  }

  predicate PriorToClosed(s: Status) { s.Opened? || s.Closing? }

  /* ---- usability of a channel for a new transfer ---- */

  datatype Usability =
    | Usable
    | NotOpened
    | InvalidSettleTimeout
    | ReachedPendingLimit
    | NotEnoughDistributable
    | WouldOverflow
    | LockTimeoutMismatch

  /** `is_channel_usable_for_new_transfer`. */
  ghost function UsableForTransfer(c: Channel, amount: int, lockTimeout: Option<int>): Usability {
    if GetStatus(c) != Opened then NotOpened
    else if c.settleTimeout < c.revealTimeout * 2 then InvalidSettleTimeout
    else if |c.our.book.pending| >= MAXIMUM_PENDING_TRANSFERS then ReachedPendingLimit
    else if amount > Distributable(c.our, c.partner) then NotEnoughDistributable
    else if Transferred(c.our.book) + CurrentLocked(c.our.book) + amount > UINT256_MAX then WouldOverflow
    else if lockTimeout.Some? && !(c.revealTimeout < lockTimeout.value <= c.settleTimeout) then LockTimeoutMismatch
    else Usable
  }

  /* ---- validity of what the partner sends ---- */

  /** `is_balance_proof_usable_onchain`. */
  predicate ProofUsable(bp: BalanceProof, c: Channel, sender: End) {
    && GetStatus(c) == Opened
    && bp.id == c.id
    && bp.transferred + bp.locked <= UINT256_MAX
    && bp.nonce == sender.nonce + 1
    && bp.signer == Some(sender.address)
  }

  /** `valid_lockedtransfer_check`: the new pending list, or `None` for an invalid transfer. */
  ghost function CheckLockedTransfer(c: Channel, sender: End, receiver: End, bp: BalanceProof, l: Lock)
    : Option<seq<EncodedLock>>
  {
    var pending := LocksWith(sender.book.pending, l);
    if && ProofUsable(bp, c, sender)
       && pending.Some?
       && |pending.value| <= MAXIMUM_PENDING_TRANSFERS
       && bp.locksroot == Locksroot(pending.value)
       && bp.transferred == Transferred(sender.book)
       && bp.locked == CurrentLocked(sender.book) + l.amount
       && l.amount <= Distributable(sender, receiver)
    then pending else None
  }

  /** `is_valid_unlock`. */
  ghost function CheckUnlock(c: Channel, sender: End, bp: BalanceProof, h: SecretHash): Option<seq<EncodedLock>> {
    var lock := GetLock(sender.book, h);
    if lock.None? then None else
    var pending := LocksWithout(sender.book.pending, Encode(lock.value));
    if && pending.Some?
       && ProofUsable(bp, c, sender)
       && bp.locksroot == Locksroot(pending.value)
       && bp.transferred == Transferred(sender.book) + lock.value.amount
       && bp.locked == CurrentLocked(sender.book) - lock.value.amount
    then pending else None
  }

  /** `is_valid_lock_expired`. */
  ghost function CheckLockExpired(c: Channel, sender: End, receiver: End, bp: BalanceProof, h: SecretHash, block: nat)
    : Option<seq<EncodedLock>>
  {
    var lock :=
      if h in sender.book.locked then Some(sender.book.locked[h])
      else if h in sender.book.unlocked then Some(sender.book.unlocked[h].lock)
      else None;
    if h in sender.book.onchain || lock.None? then None else
    var pending := LocksWithout(sender.book.pending, Encode(lock.value));
    if && ProofUsable(bp, c, sender)
       && pending.Some?
       && IsLockExpired(receiver.book, lock.value, block, ReceiverThreshold(lock.value.expiration))
       && bp.locksroot == Locksroot(pending.value)
       && bp.transferred == Transferred(sender.book)
       && bp.locked == CurrentLocked(sender.book) - lock.value.amount
    then pending else None
  }

  /** `is_valid_total_withdraw`. */
  predicate ValidTotalWithdraw(c: Channel, total: int, allowZero: bool) {
    var amount := total - TotalWithdraw(c.our);
    && GetStatus(c) == Opened
    && amount >= 0
    && (allowZero || amount != 0)
    && Balance(c.our, c.partner) >= amount
    && total + TotalWithdraw(c.partner) <= UINT256_MAX
  }

  /** `is_valid_action_coopsettle`. */
  predicate ValidCoopSettle(c: Channel, total: int) {
    && ValidTotalWithdraw(c, total, true)
    && c.our.book.pending == []
    && c.partner.book.pending == []
    && OffchainWithdraw(c.our.withdraws) <= 0
    && OffchainWithdraw(c.partner.withdraws) <= 0
  }

  /** A withdraw message; `signer` is the address its signature recovers to. */
  datatype WithdrawMessage = WithdrawMessage(
    id: CanonicalId,
    total: int,
    nonce: nat,
    expiration: int,
    participant: Address,
    sender: Address,
    signer: Option<Address>)

  /** `is_valid_withdraw_request`. */
  predicate ValidWithdrawRequest(c: Channel, m: WithdrawMessage) {
    var amount := m.total - TotalWithdraw(c.partner);
    && m.id == c.id
    && m.participant == c.partner.address
    && m.sender == c.partner.address
    && amount >= 0
    && Balance(c.partner, c.our) >= amount
    && m.nonce == c.partner.nonce + 1
    && m.total + TotalWithdraw(c.our) <= UINT256_MAX
    && m.signer == Some(m.sender)
  }

  /** Dictionary lookup by total in insertion order. */
  function FindWithdraw(ws: seq<Withdraw>, total: int): (r: Option<Withdraw>)
    ensures r.Some? ==> r.value in ws && r.value.total == total
    ensures r.None? ==> forall w :: w in ws ==> w.total != total
  {
    if ws == [] then None
    else if ws[0].total == total then Some(ws[0])
    else FindWithdraw(ws[1..], total)
  }

  /** Assigning a key keeps its position; a new key goes last. */
  function PutWithdraw(ws: seq<Withdraw>, w: Withdraw): seq<Withdraw> {
    if ws == [] then [w]
    else if ws[0].total == w.total then [w] + ws[1..]
    else [ws[0]] + PutWithdraw(ws[1..], w)
  }

  function DropWithdraw(ws: seq<Withdraw>, total: int): seq<Withdraw> {
    if ws == [] then []
    else if ws[0].total == total then ws[1..]
    else [ws[0]] + DropWithdraw(ws[1..], total)
  }

  lemma {:induction false} DropUnknown(ws: seq<Withdraw>, total: int)
    requires FindWithdraw(ws, total).None?
    ensures DropWithdraw(ws, total) == ws
    decreases |ws|
  {
    if ws != [] { DropUnknown(ws[1..], total); }
  }

  /** `is_valid_withdraw_confirmation`. */
  predicate ValidWithdrawConfirmation(c: Channel, m: WithdrawMessage) {
    var pending := FindWithdraw(c.our.withdraws, m.total);
    var known := if pending.Some? then pending else FindWithdraw(c.our.withdrawsExpired, m.total);
    && known.Some?
    && m.id == c.id
    && m.total == TotalWithdraw(c.our)
    && m.nonce == c.partner.nonce + 1
    && m.expiration == known.value.expiration
    && m.participant == c.our.address
    && m.sender == c.partner.address
    && m.total + TotalWithdraw(c.partner) <= UINT256_MAX
    && m.signer == Some(m.sender)
  }

  /** `is_valid_withdraw_expired`, for a withdraw that was found. */
  predicate ValidWithdrawExpired(c: Channel, m: WithdrawMessage, w: Withdraw, block: nat) {
    && block >= ReceiverThreshold(w.expiration)
    && m.id == c.id
    && m.sender == c.partner.address
    && m.total == w.total
    && m.nonce == c.partner.nonce + 1
  }
}
