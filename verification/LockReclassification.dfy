/**
 Locks after settlement with an older balance proof, and the unlocks sent for them
 (`_update_lock_info` and its caller in `raiden_common/raiden_event_handler.py`).
 */
module LockReclassification {
  import opened Options
  import opened LockCodec
  import opened ChannelState
  import opened NettingChannel

  function LocksOf(m: map<SecretHash, PartialProof>): map<SecretHash, Lock> {
    map h | h in m :: m[h].lock
  }

  /** All locks of the old state that were not claimed on-chain then. */
  function Unclaimed(b: Book): map<SecretHash, Lock> { b.locked + LocksOf(b.unlocked) }

  /** Those of them that are on-chain now, as they are there. */
  function Claimed(locks: map<SecretHash, Lock>, now: map<SecretHash, PartialProof>): map<SecretHash, PartialProof> {
    map h | h in locks && h in now :: now[h]
  }

  /** Those that are not, split by whether a payment task still asks for them. */
  function Kept(locks: map<SecretHash, Lock>, now: map<SecretHash, PartialProof>,
                tasks: set<SecretHash>): map<SecretHash, Lock>
  {
    map h | h in locks && h !in now && h in tasks :: locks[h]
  }

  function Dropped(locks: map<SecretHash, Lock>, now: map<SecretHash, PartialProof>,
                   tasks: set<SecretHash>): map<SecretHash, Lock>
  {
    map h | h in locks && h !in now && h !in tasks :: locks[h]
  }

  /** The old book, with the locks put where they belong now. */
  function Reclassified(b: Book, now: map<SecretHash, PartialProof>, tasks: set<SecretHash>): Book {
    b.(locked := Kept(Unclaimed(b), now, tasks), unlocked := map[], onchain := b.onchain + Claimed(Unclaimed(b), now))
  }

  /** The open locks and the on-chain ones once the entries `done` have been looked at. */
  ghost predicate ClaimedSoFar(locks: map<SecretHash, Lock>, before: map<SecretHash, PartialProof>,
                               done: map<SecretHash, PartialProof>, open: map<SecretHash, Lock>,
                               onchain: map<SecretHash, PartialProof>)
  {
    open == locks - done.Keys && onchain == before + Claimed(locks, done)
  }

  lemma ClaimOne(locks: map<SecretHash, Lock>, before: map<SecretHash, PartialProof>,
                 done: map<SecretHash, PartialProof>,
                 open: map<SecretHash, Lock>, onchain: map<SecretHash, PartialProof>,
                 h: SecretHash, unlock: PartialProof)
    requires ClaimedSoFar(locks, before, done, open, onchain) && h !in done
    ensures h in open ==> ClaimedSoFar(locks, before, done[h := unlock], open - {h}, onchain[h := unlock])
    ensures h !in open ==> ClaimedSoFar(locks, before, done[h := unlock], open, onchain)
  {
    var more := done[h := unlock];
    assert more.Keys == done.Keys + {h};
    if h in locks {
      assert Claimed(locks, more) == Claimed(locks, done)[h := unlock];
    } else {
      assert Claimed(locks, more) == Claimed(locks, done);
    }
  }

  /** The entries of `now` that are still to be looked at and those that have been. */
  ghost predicate Split(rest: map<SecretHash, PartialProof>, done: map<SecretHash, PartialProof>,
                        now: map<SecretHash, PartialProof>)
  {
    rest.Keys !! done.Keys && rest + done == now
  }

  lemma MoveEntry(rest: map<SecretHash, PartialProof>, done: map<SecretHash, PartialProof>,
                  now: map<SecretHash, PartialProof>, h: SecretHash)
    requires h in rest && Split(rest, done, now)
    ensures h !in done && Split(rest - {h}, done[h := rest[h]], now)
  {
    assert (rest - {h}) + done[h := rest[h]] == rest + done;
  }

  lemma AllSplit(done: map<SecretHash, PartialProof>, now: map<SecretHash, PartialProof>)
    requires Split(map[], done, now)
    ensures done == now
  {
    assert map[] + done == done;
  }

  lemma NothingClaimed(locks: map<SecretHash, Lock>, before: map<SecretHash, PartialProof>,
                       now: map<SecretHash, PartialProof>)
    ensures ClaimedSoFar(locks, before, map[], locks, before) && Split(now, map[], now)
  {
    assert Claimed(locks, map[]) == map[];
  }

  /** Goes through what is on-chain now and moves the locks that were still open. */
  method ClaimOnchain(past: NettingChannelEnd, now: map<SecretHash, PartialProof>)
    modifies past`locked, past`onchain
    ensures ClaimedSoFar(old(past.locked), old(past.onchain), now, past.locked, past.onchain)
  {
    ghost var locks, before := past.locked, past.onchain;
    var rest := now;
    ghost var done: map<SecretHash, PartialProof> := map[];
    NothingClaimed(locks, before, now);
    while rest != map[]
      invariant Split(rest, done, now)
      invariant ClaimedSoFar(locks, before, done, past.locked, past.onchain)
      decreases |rest|
    {
      var h :| h in rest;
      var unlock := rest[h];
      MoveEntry(rest, done, now, h);
      ClaimOne(locks, before, done, past.locked, past.onchain, h, unlock);
      if h in past.locked {
        past.locked := past.locked - {h};
        past.onchain := past.onchain[h := unlock];
      }
      rest := rest - {h};
      done := done[h := unlock];
    }
    AllSplit(done, now);
  }

  /** Updates the end of the restored channel in place; `tasks` are the secrethashes with a payment task. */
  method UpdateLockInfo(past: NettingChannelEnd, now: NettingChannelEnd, tasks: set<SecretHash>)
    requires past != now
    modifies past
    ensures past.View() == old(past.View()).(book := Reclassified(old(past.BookView()), now.onchain, tasks))
  {
    ghost var locks := Unclaimed(past.BookView());
    past.locked := past.locked + LocksOf(past.unlocked);
    past.unlocked := map[];
    ClaimOnchain(past, now.onchain);
    KeepTasks(locks, now.onchain, tasks);
    past.locked := WithTask(past.locked, tasks);
  }

  function WithTask(locks: map<SecretHash, Lock>, tasks: set<SecretHash>): map<SecretHash, Lock> {
    map h | h in locks && h in tasks :: locks[h]
  }

  lemma KeepTasks(locks: map<SecretHash, Lock>, now: map<SecretHash, PartialProof>, tasks: set<SecretHash>)
    ensures WithTask(locks - now.Keys, tasks) == Kept(locks, now, tasks)
  {
    assert WithTask(locks - now.Keys, tasks).Keys == Kept(locks, now, tasks).Keys;
  }

  /** No secrethash is in two indexes. */
  predicate Separate(b: Book) {
    b.locked.Keys !! b.unlocked.Keys !! b.onchain.Keys
  }

  /** Nothing is left unlocked, no lock is in both indexes, and each index holds exactly the right secrethashes. */
  lemma ReclassifiedKeys(b: Book, now: map<SecretHash, PartialProof>, tasks: set<SecretHash>)
    requires Separate(b)
    ensures var r := Reclassified(b, now, tasks);
      && Separate(r) && r.unlocked == map[]
      && r.onchain.Keys == b.onchain.Keys + (b.locked.Keys + b.unlocked.Keys) * now.Keys
      && r.locked.Keys == ((b.locked.Keys + b.unlocked.Keys) - now.Keys) * tasks
  {
    assert Unclaimed(b).Keys == b.locked.Keys + b.unlocked.Keys;
    assert Claimed(Unclaimed(b), now).Keys == Unclaimed(b).Keys * now.Keys;
  }

  /* ---- amounts ---- */

  lemma SplitEntry<V>(m: map<SecretHash, V>, n: map<SecretHash, V>, h: SecretHash)
    requires h in n && m.Keys !! n.Keys
    ensures n == (n - {h})[h := n[h]] && m + n == (m + (n - {h}))[h := n[h]]
    ensures h !in m + (n - {h}) && m.Keys !! (n - {h}).Keys
  {
  }

  lemma {:induction false} SumDisjoint<V>(m: map<SecretHash, V>, n: map<SecretHash, V>, amount: V -> nat)
    requires m.Keys !! n.Keys
    ensures Sum(m + n, amount) == Sum(m, amount) + Sum(n, amount)
    decreases |n|
  {
    if n.Keys == {} {
      assert m + n == m && n == map[];
    } else {
      var h :| h in n.Keys;
      SplitEntry(m, n, h);
      SumDisjoint(m, n - {h}, amount);
      SumWith(m + (n - {h}), amount, h, n[h]);
      SumWith(n - {h}, amount, h, n[h]);
    }
  }

  lemma {:induction false} SumOfLocks(m: map<SecretHash, PartialProof>)
    ensures Sum(m, ProofAmount) == Sum(LocksOf(m), LockAmount)
    decreases |m|
  {
    if m == map[] {
      assert LocksOf(m) == map[];
    } else {
      var h :| h in m;
      SumWithout(m, ProofAmount, h);
      SumWithout(LocksOf(m), LockAmount, h);
      assert LocksOf(m) - {h} == LocksOf(m - {h});
      SumOfLocks(m - {h});
    }
  }

  /** A lock that is on-chain now is the lock it was then. */
  ghost predicate SameLocks(locks: map<SecretHash, Lock>, now: map<SecretHash, PartialProof>) {
    forall h :: h in now && h in locks ==> now[h].lock == locks[h]
  }

  lemma UnclaimedAmount(b: Book)
    requires Separate(b)
    ensures AmountLocked(b) == Sum(Unclaimed(b), LockAmount) + Sum(b.onchain, ProofAmount)
  {
    SumOfLocks(b.unlocked);
    SumDisjoint(b.locked, LocksOf(b.unlocked), LockAmount);
  }

  lemma PartsOfLocks(locks: map<SecretHash, Lock>, now: map<SecretHash, PartialProof>, tasks: set<SecretHash>)
    requires SameLocks(locks, now)
    ensures LocksOf(Claimed(locks, now)) + Kept(locks, now, tasks) + Dropped(locks, now, tasks) == locks
  {
    var parts := LocksOf(Claimed(locks, now)) + Kept(locks, now, tasks) + Dropped(locks, now, tasks);
    assert parts.Keys == locks.Keys;
  }

  lemma PartsAddUp(locks: map<SecretHash, Lock>, now: map<SecretHash, PartialProof>, tasks: set<SecretHash>)
    requires SameLocks(locks, now)
    ensures Sum(locks, LockAmount) == Sum(Claimed(locks, now), ProofAmount)
      + Sum(Kept(locks, now, tasks), LockAmount) + Sum(Dropped(locks, now, tasks), LockAmount)
  {
    var claimed, kept := LocksOf(Claimed(locks, now)), Kept(locks, now, tasks);
    PartsOfLocks(locks, now, tasks);
    SumOfLocks(Claimed(locks, now));
    SumDisjoint(claimed, kept, LockAmount);
    SumDisjoint(claimed + kept, Dropped(locks, now, tasks), LockAmount);
  }

  /**
   No token is counted twice: what can be gained by unlocking for either side,
   with the locks that are dropped, adds up to what the old state had locked.
   */
  lemma GainsAddUp(b: Book, now: map<SecretHash, PartialProof>, tasks: set<SecretHash>)
    requires Separate(b) && SameLocks(Unclaimed(b), now)
    ensures var r := Reclassified(b, now, tasks);
      Sum(r.onchain, ProofAmount) + Sum(r.locked, LockAmount) + Sum(Dropped(Unclaimed(b), now, tasks), LockAmount)
        == AmountLocked(b)
  {
    UnclaimedAmount(b);
    PartsAddUp(Unclaimed(b), now, tasks);
    SumDisjoint(b.onchain, Claimed(Unclaimed(b), now), ProofAmount);
  }

  /** What this node gains by unlocking the partner's locks: those claimed on-chain. */
  ghost function ReceiverGain(past: Book, now: Book, tasks: set<SecretHash>): nat {
    Sum(Reclassified(past, now.onchain, tasks).onchain, ProofAmount)
  }

  /** What it gets back by unlocking its own locks: those nobody claimed. */
  ghost function SenderGain(past: Book, now: Book, tasks: set<SecretHash>): nat {
    Sum(Reclassified(past, now.onchain, tasks).locked, LockAmount)
  }

  /** Neither gain exceeds what was locked in the state that settlement used. */
  lemma GainsAreLocked(past: Book, now: Book, tasks: set<SecretHash>)
    requires Separate(past) && SameLocks(Unclaimed(past), now.onchain)
    ensures ReceiverGain(past, now, tasks) + SenderGain(past, now, tasks) <= AmountLocked(past)
  {
    GainsAddUp(past, now.onchain, tasks);
  }

  /** An unlock transaction: the pending locks of `sender`, to be paid out to `receiver` where claimed. */
  datatype Unlock = Unlock(sender: Address, receiver: Address, pending: seq<EncodedLock>)

  /** The unlock of the partner's locks: wanted when the partner settled with locks, sent when there is a gain. */
  ghost function PartnerUnlocks(now: Channel, past: Option<Book>, tasks: set<SecretHash>): seq<Unlock> {
    if now.partner.onchainLocksroot == NoLocksRoot() || past.None? then [] else
    if ReceiverGain(past.value, now.partner.book, tasks) == 0 then [] else
    [Unlock(now.partner.address, now.our.address, past.value.pending)]
  }

  /** The unlock of our own locks. */
  ghost function OurUnlocks(now: Channel, past: Option<Book>, tasks: set<SecretHash>): seq<Unlock> {
    if now.our.onchainLocksroot == NoLocksRoot() || past.None? then [] else
    if SenderGain(past.value, now.our.book, tasks) == 0 then [] else
    [Unlock(now.our.address, now.partner.address, past.value.pending)]
  }

  /* ---- when an unlock is sent, in terms of the locks ---- */

  lemma {:induction false} PositiveSum<V>(m: map<SecretHash, V>, amount: V -> nat)
    ensures Sum(m, amount) > 0 <==> exists h :: h in m && amount(m[h]) > 0
    decreases |m|
  {
    if m != map[] {
      var h :| h in m;
      SumWithout(m, amount, h);
      PositiveSum(m - {h}, amount);
      assert forall k :: k in m ==> k == h || (k in m - {h} && (m - {h})[k] == m[k]);
    }
  }

  /** The lock was open, that is locked or unlocked off-chain, with this amount. */
  ghost predicate OpenWith(b: Book, h: SecretHash, amount: nat) {
    (h in b.locked && b.locked[h].amount == amount) || (h in b.unlocked && b.unlocked[h].lock.amount == amount)
  }

  /** A lock worth something was claimed on-chain then, or was open then and is on-chain now. */
  ghost predicate SomeClaimed(past: Book, now: Book) {
    exists h ::
      || (h in past.onchain && past.onchain[h].lock.amount > 0)
      || ((h in past.locked || h in past.unlocked) && h in now.onchain && now.onchain[h].lock.amount > 0)
  }

  /** A lock worth something was open then, is not on-chain now, and a payment still asks for it. */
  ghost predicate SomeUnclaimed(past: Book, now: Book, tasks: set<SecretHash>) {
    exists h, amount :: OpenWith(past, h, amount) && amount > 0 && h !in now.onchain && h in tasks
  }

  /** What is under `h` in the on-chain index of the reclassified book. */
  lemma OnchainEntry(past: Book, now: map<SecretHash, PartialProof>, tasks: set<SecretHash>, h: SecretHash)
    requires Separate(past)
    ensures var onchain := Reclassified(past, now, tasks).onchain;
      if h in past.onchain then h in onchain && onchain[h] == past.onchain[h]
      else if (h in past.locked || h in past.unlocked) && h in now then h in onchain && onchain[h] == now[h]
      else h !in onchain
    ensures h in past.locked || h in past.unlocked ==> h !in past.onchain
  {
  }

  lemma ReceiverGainsIff(past: Book, now: Book, tasks: set<SecretHash>)
    requires Separate(past)
    ensures ReceiverGain(past, now, tasks) > 0 <==> SomeClaimed(past, now)
  {
    PositiveSum(Reclassified(past, now.onchain, tasks).onchain, ProofAmount);
    forall h { OnchainEntry(past, now.onchain, tasks, h); }
  }

  lemma SenderGainsIff(past: Book, now: Book, tasks: set<SecretHash>)
    requires Separate(past)
    ensures SenderGain(past, now, tasks) > 0 <==> SomeUnclaimed(past, now, tasks)
  {
    var locked := Reclassified(past, now.onchain, tasks).locked;
    PositiveSum(locked, LockAmount);
    if h :| h in locked && LockAmount(locked[h]) > 0 { assert OpenWith(past, h, locked[h].amount); }
    if h, amount :| OpenWith(past, h, amount) && amount > 0 && h !in now.onchain && h in tasks {
      assert h in locked && locked[h].amount == amount;
    }
  }

  /**
   The partner's locks are unlocked exactly when it settled with locks and one of
   them, worth something, can be claimed: from the partner, to this node, with the
   pending locks of the restored state.
   */
  lemma PartnerUnlockIff(now: Channel, past: Book, tasks: set<SecretHash>)
    requires Separate(past)
    ensures PartnerUnlocks(now, Some(past), tasks) ==
      if now.partner.onchainLocksroot != NoLocksRoot() && SomeClaimed(past, now.partner.book) then
        [Unlock(now.partner.address, now.our.address, past.pending)]
      else []
  {
    ReceiverGainsIff(past, now.partner.book, tasks);
  }

  /** Our locks are unlocked exactly when we settled with locks and one of them, worth something, was not claimed. */
  lemma OurUnlockIff(now: Channel, past: Book, tasks: set<SecretHash>)
    requires Separate(past)
    ensures OurUnlocks(now, Some(past), tasks) ==
      if now.our.onchainLocksroot != NoLocksRoot() && SomeUnclaimed(past, now.our.book, tasks) then
        [Unlock(now.our.address, now.partner.address, past.pending)]
      else []
  {
    SenderGainsIff(past, now.our.book, tasks);
  }

  /** The state with the partner's locks on-chain could not be restored. */
  predicate PartnerStateMissing(now: Channel, past: Option<NettingChannelEnd>) {
    now.partner.onchainLocksroot != NoLocksRoot() && past.None?
  }

  predicate OurStateMissing(now: Channel, past: Option<NettingChannelEnd>) {
    now.our.onchainLocksroot != NoLocksRoot() && past.None?
  }

  ghost function BookOf(past: Option<NettingChannelEnd>): Option<Book>
    reads if past.Some? then {past.value} else {}
  {
    if past.None? then None else Some(past.value.BookView())
  }

  /** The partner's end: receiver of the locks is this node. */
  method UnlockPartnerLocks(now: NettingChannel, past: NettingChannelEnd, tasks: set<SecretHash>)
    returns (sent: seq<Unlock>)
    requires past != now.our && past != now.partner && now.partner.onchainLocksroot != NoLocksRoot()
    modifies past
    ensures sent == PartnerUnlocks(now.View(), Some(old(past.BookView())), tasks)
    ensures Separate(old(past.BookView())) ==>
      (sent == [] <==> !SomeClaimed(old(past.BookView()), now.partner.BookView()))
  {
    if Separate(past.BookView()) { PartnerUnlockIff(now.View(), past.BookView(), tasks); }
    UpdateLockInfo(past, now.partner, tasks);
    var gain := Total(past.onchain, ProofAmount);
    sent := if gain > 0 then [Unlock(now.partner.address, now.our.address, past.pending)] else [];
  }

  /** Our own end: sender of the locks is this node. */
  method UnlockOurLocks(now: NettingChannel, past: NettingChannelEnd, tasks: set<SecretHash>)
    returns (sent: seq<Unlock>)
    requires past != now.our && past != now.partner && now.our.onchainLocksroot != NoLocksRoot()
    modifies past
    ensures sent == OurUnlocks(now.View(), Some(old(past.BookView())), tasks)
    ensures Separate(old(past.BookView())) ==>
      (sent == [] <==> !SomeUnclaimed(old(past.BookView()), now.our.BookView(), tasks))
  {
    if Separate(past.BookView()) { OurUnlockIff(now.View(), past.BookView(), tasks); }
    UpdateLockInfo(past, now.our, tasks);
    var gain := Total(past.locked, LockAmount);
    sent := if gain > 0 then [Unlock(now.our.address, now.partner.address, past.pending)] else [];
  }

  /**
   `handle_contract_send_channelunlock`.  `pastPartner` and `pastOur` are the
   ends of the two channel states restored from the log, if they were found.
   When the second one is missing the exception comes after the first unlock.
   */
  method HandleBatchUnlock(now: NettingChannel, pastPartner: Option<NettingChannelEnd>,
                           pastOur: Option<NettingChannelEnd>, tasks: set<SecretHash>)
    returns (ok: bool, sent: seq<Unlock>)
    requires pastPartner.Some? ==> pastPartner.value != now.our && pastPartner.value != now.partner
    requires pastOur.Some? ==> pastOur.value != now.our && pastOur.value != now.partner
    requires pastPartner.Some? && pastOur.Some? ==> pastPartner.value != pastOur.value
    modifies if pastPartner.Some? then {pastPartner.value} else {}, if pastOur.Some? then {pastOur.value} else {}
    ensures ok <==> !PartnerStateMissing(now.View(), pastPartner) && !OurStateMissing(now.View(), pastOur)
    ensures sent == PartnerUnlocks(now.View(), old(BookOf(pastPartner)), tasks)
      + if PartnerStateMissing(now.View(), pastPartner) then [] else OurUnlocks(now.View(), old(BookOf(pastOur)), tasks)
  {
    sent := [];
    if now.partner.onchainLocksroot != NoLocksRoot() {
      if pastPartner.None? { return false, sent; }
      sent := UnlockPartnerLocks(now, pastPartner.value, tasks);
    }
    if now.our.onchainLocksroot != NoLocksRoot() {
      if pastOur.None? { return false, sent; }
      var more := UnlockOurLocks(now, pastOur.value, tasks);
      sent := sent + more;
    }
    ok := true;
  }
}
