/**
 What ties the pending lock list, the three lock dictionaries and the stored
 balance proof of one end together.  The lemmas say exactly when each operation
 on an end keeps this invariant.
 */
module LockInvariant {
  import opened Options
  import opened LockCodec
  import opened ChannelState
  import opened ChannelTransitions

  ghost predicate NoDuplicates<T>(s: seq<T>) {
    forall i, j :: 0 <= i < j < |s| ==> s[i] != s[j]
  }

  /** No secrethash is in two dictionaries and every lock is under its own secrethash. */
  ghost predicate IndexesDisjoint(b: Book) {
    && (forall h :: h in b.locked ==> b.locked[h].secrethash == h)
    && (forall h :: h in b.unlocked ==> b.unlocked[h].lock.secrethash == h)
    && (forall h :: h in b.onchain ==> b.onchain[h].lock.secrethash == h)
    && b.locked.Keys !! b.unlocked.Keys
    && b.locked.Keys !! b.onchain.Keys
    && b.unlocked.Keys !! b.onchain.Keys
  }

  /** The encoding of the lock indexed under `h`. */
  ghost predicate Holds(b: Book, h: SecretHash, x: EncodedLock) {
    IsLockPending(b, h) && Encode(GetLock(b, h).value) == x
  }

  /** The list has no duplicates and holds exactly the encodings of the indexed locks. */
  ghost predicate ListMatchesIndexes(b: Book) {
    && NoDuplicates(b.pending)
    && (forall h :: IsLockPending(b, h) ==> Encode(GetLock(b, h).value) in b.pending)
    && (forall x :: x in b.pending ==> exists h :: Holds(b, h, x))
  }

  /** The stored proof commits to the sum of the lock amounts and to the list. */
  ghost predicate ProofMatchesLocks(b: Book) {
    if b.proof.None? then b.pending == []
    else b.proof.value.locked == AmountLocked(b) && b.proof.value.locksroot == Locksroot(b.pending)
  }

  ghost predicate LockInv(b: Book) {
    IndexesDisjoint(b) && ListMatchesIndexes(b) && ProofMatchesLocks(b)
  }

  lemma {:induction false} RemoveFirstMembers<T>(s: seq<T>, x: T)
    requires NoDuplicates(s) && x in s
    ensures NoDuplicates(RemoveFirst(s, x))
    ensures forall y :: y in RemoveFirst(s, x) <==> y in s && y != x
    ensures |RemoveFirst(s, x)| == |s| - 1
  {
    if s[0] == x {
      assert forall y :: y in s[1..] ==> y in s;
      assert forall y :: y in s && y != x ==> y in s[1..];
    } else {
      assert s == [s[0]] + s[1..];
      RemoveFirstMembers(s[1..], x);
      assert s[0] !in s[1..];
      assert RemoveFirst(s, x) == [s[0]] + RemoveFirst(s[1..], x);
    }
  }

  /** Without pending locks there is nothing indexed and nothing locked. */
  lemma EmptyListNoLocks(b: Book)
    requires ListMatchesIndexes(b) && b.pending == []
    ensures AmountLocked(b) == 0
  {
    assert forall h :: !IsLockPending(b, h);
    forall h ensures h !in b.locked && h !in b.unlocked && h !in b.onchain {
      assert !IsLockPending(b, h);
    }
    assert b.locked == map[] && b.unlocked == map[] && b.onchain == map[];
  }

  /** The locked amount read from the stored proof is the sum over the indexes. */
  lemma CurrentIsAmountLocked(b: Book)
    requires LockInv(b)
    ensures CurrentLocked(b) == AmountLocked(b)
  {
    if b.proof.None? {
      EmptyListNoLocks(b);
    }
  }

  /** An encoding in the list belongs to the lock indexed under its secrethash. */
  lemma ListedLockIsIndexed(b: Book, l: Lock)
    requires IndexesDisjoint(b) && ListMatchesIndexes(b)
    requires Encode(l) in b.pending
    ensures GetLock(b, l.secrethash) == Some(l)
  {
    var h :| Holds(b, h, Encode(l));
    EncodeInjective(GetLock(b, h).value, l);
  }

  lemma LockAmountCounts(b: Book, h: SecretHash)
    requires IndexesDisjoint(b) && IsLockPending(b, h)
    ensures AmountLocked(b) >= GetLock(b, h).value.amount
    ensures AmountLocked(DelLock(b, h)) == AmountLocked(b) - GetLock(b, h).value.amount
  {
    var d := DelLock(b, h);
    if h in b.locked {
      SumWithout(b.locked, LockAmount, h);
      assert d.unlocked == b.unlocked && d.onchain == b.onchain;
    } else if h in b.unlocked {
      SumWithout(b.unlocked, ProofAmount, h);
      assert d.locked == b.locked && d.onchain == b.onchain;
    } else {
      SumWithout(b.onchain, ProofAmount, h);
      assert d.locked == b.locked && d.unlocked == b.unlocked;
    }
  }

  /* ---- a locked transfer ---- */

  ghost function AddLock(b: Book, bp: BalanceProof, l: Lock): Book {
    IndexLock(WithProof(b, bp, b.pending + [Encode(l)]), l)
  }

  /** A balance proof that adds `l` to what `b` already commits to. */
  ghost predicate ProofAdds(b: Book, bp: BalanceProof, l: Lock) {
    && Encode(l) !in b.pending
    && bp.locked == AmountLocked(b) + l.amount
    && bp.locksroot == Locksroot(b.pending + [Encode(l)])
  }

  lemma AddFreshLock(b: Book, bp: BalanceProof, l: Lock)
    requires LockInv(b) && ProofAdds(b, bp, l) && !IsLockPending(b, l.secrethash)
    ensures LockInv(AddLock(b, bp, l))
    ensures AmountLocked(AddLock(b, bp, l)) == AmountLocked(b) + l.amount
  {
    var d := AddLock(b, bp, l);
    SumWith(b.locked, LockAmount, l.secrethash, l);
    assert forall h :: h != l.secrethash ==> GetLock(d, h) == GetLock(b, h);
    assert Holds(d, l.secrethash, Encode(l));
    forall x | x in d.pending ensures exists h :: Holds(d, h, x) {
      if x != Encode(l) {
        var h :| Holds(b, h, x);
        assert Holds(d, h, x);
      }
    }
  }

  /** Registering a locked transfer keeps the invariant exactly when its secrethash is new to the end. */
  lemma AddLockKeepsIff(b: Book, bp: BalanceProof, l: Lock)
    requires LockInv(b) && ProofAdds(b, bp, l)
    ensures LockInv(AddLock(b, bp, l)) <==> !IsLockPending(b, l.secrethash)
  {
    if !IsLockPending(b, l.secrethash) {
      AddFreshLock(b, bp, l);
    } else if l.secrethash in b.locked {
      var d := AddLock(b, bp, l);
      var old' := b.locked[l.secrethash];
      assert d.pending[..|b.pending|] == b.pending;
      assert Encode(old') in d.pending;
      if LockInv(d) {
        ListedLockIsIndexed(d, old');
      }
    }
  }

  /* ---- an unlock or an expired lock ---- */

  /** A balance proof that takes `l` out of what `b` commits to. */
  ghost predicate ProofRemoves(b: Book, bp: BalanceProof, l: Lock) {
    && bp.locked == AmountLocked(b) - l.amount
    && bp.locksroot == Locksroot(RemoveFirst(b.pending, Encode(l)))
  }

  lemma RemovedListMatches(b: Book, d: Book, l: Lock)
    requires IndexesDisjoint(b) && ListMatchesIndexes(b) && GetLock(b, l.secrethash) == Some(l)
    requires d.pending == RemoveFirst(b.pending, Encode(l))
    requires !IsLockPending(d, l.secrethash)
    requires forall h :: h != l.secrethash ==> GetLock(d, h) == GetLock(b, h)
    ensures ListMatchesIndexes(d)
  {
    RemoveFirstMembers(b.pending, Encode(l));
    forall h | IsLockPending(d, h) ensures Encode(GetLock(d, h).value) in d.pending {
      assert h != l.secrethash && GetLock(d, h) == GetLock(b, h);
      if Encode(GetLock(b, h).value) == Encode(l) {
        EncodeInjective(GetLock(b, h).value, l);
      }
    }
    forall x | x in d.pending ensures exists h :: Holds(d, h, x) {
      var h :| Holds(b, h, x);
      assert h != l.secrethash;
      assert Holds(d, h, x);
    }
  }

  lemma DelLockIndexes(b: Book, h: SecretHash)
    requires IndexesDisjoint(b)
    ensures IndexesDisjoint(DelLock(b, h)) && !IsLockPending(DelLock(b, h), h)
    ensures forall k :: k != h ==> GetLock(DelLock(b, h), k) == GetLock(b, k)
  {
  }

  lemma RemoveLockKeeps(b: Book, bp: BalanceProof, l: Lock)
    requires LockInv(b) && GetLock(b, l.secrethash) == Some(l) && ProofRemoves(b, bp, l)
    ensures LockInv(DelLock(WithProof(b, bp, RemoveFirst(b.pending, Encode(l))), l.secrethash))
  {
    var e := WithProof(b, bp, RemoveFirst(b.pending, Encode(l)));
    DelLockIndexes(e, l.secrethash);
    LockAmountCounts(e, l.secrethash);
    assert GetLock(e, l.secrethash) == GetLock(b, l.secrethash);
    forall k | k != l.secrethash ensures GetLock(DelLock(e, l.secrethash), k) == GetLock(b, k) {
      assert GetLock(e, k) == GetLock(b, k);
    }
    RemovedListMatches(b, DelLock(e, l.secrethash), l);
  }

  /** Dropping an expired lock keeps the invariant exactly when its secret is not registered on-chain. */
  lemma ExpireLockKeepsIff(b: Book, bp: BalanceProof, l: Lock)
    requires LockInv(b) && GetLock(b, l.secrethash) == Some(l) && ProofRemoves(b, bp, l)
    ensures LockInv(DelUnclaimed(WithProof(b, bp, RemoveFirst(b.pending, Encode(l))), l.secrethash))
       <==> l.secrethash !in b.onchain
  {
    var d := DelUnclaimed(WithProof(b, bp, RemoveFirst(b.pending, Encode(l))), l.secrethash);
    if l.secrethash !in b.onchain {
      assert d == DelLock(WithProof(b, bp, RemoveFirst(b.pending, Encode(l))), l.secrethash);
      RemoveLockKeeps(b, bp, l);
    } else {
      RemoveFirstMembers(b.pending, Encode(l));
      assert GetLock(d, l.secrethash) == Some(l);
    }
  }

  /* ---- secrets ---- */

  lemma MovedLockSameList(b: Book, d: Book)
    requires ListMatchesIndexes(b) && d.pending == b.pending
    requires forall h :: GetLock(d, h) == GetLock(b, h)
    ensures ListMatchesIndexes(d)
  {
    forall x | x in d.pending ensures exists h :: Holds(d, h, x) {
      var h :| Holds(b, h, x);
      assert Holds(d, h, x);
    }
  }

  lemma RegisterSecretKeeps(b: Book, secret: Secret, h: SecretHash)
    requires LockInv(b)
    ensures LockInv(RegisterSecretBook(b, secret, h))
    ensures AmountLocked(RegisterSecretBook(b, secret, h)) == AmountLocked(b)
    ensures forall k :: GetLock(RegisterSecretBook(b, secret, h), k) == GetLock(b, k)
  {
    if h in b.locked {
      var d := RegisterSecretBook(b, secret, h);
      SumWithout(b.locked, LockAmount, h);
      SumWith(b.unlocked, ProofAmount, h, PartialProof(b.locked[h], secret));
      MovedLockSameList(b, d);
    }
  }

  /** The end after a claimable lock `l` moves to the on-chain dictionary. */
  ghost function MoveOnchain(b: Book, l: Lock, secret: Secret, h: SecretHash): Book {
    DelLock(b, h).(onchain := (b.onchain - {h})[h := PartialProof(l, secret)])
  }

  lemma MoveOnchainIndexes(b: Book, l: Lock, secret: Secret, h: SecretHash)
    requires IndexesDisjoint(b) && h !in b.onchain && GetLock(b, h) == Some(l)
    ensures IndexesDisjoint(MoveOnchain(b, l, secret, h))
    ensures forall k :: GetLock(MoveOnchain(b, l, secret, h), k) == GetLock(b, k)
  {
    var d := MoveOnchain(b, l, secret, h);
  }

  lemma MoveOnchainAmount(b: Book, l: Lock, secret: Secret, h: SecretHash)
    requires IndexesDisjoint(b) && h !in b.onchain && GetLock(b, h) == Some(l)
    ensures AmountLocked(MoveOnchain(b, l, secret, h)) == AmountLocked(b)
  {
    var d := MoveOnchain(b, l, secret, h);
    LockAmountCounts(b, h);
    assert b.onchain - {h} == b.onchain;
    SumWith(b.onchain, ProofAmount, h, PartialProof(l, secret));
  }

  lemma RegisterOnchainMoves(b: Book, secret: Secret, h: SecretHash, block: nat)
    requires LockInv(b)
    ensures LockInv(RegisterOnchainBook(b, secret, h, block, true))
    ensures AmountLocked(RegisterOnchainBook(b, secret, h, block, true)) == AmountLocked(b)
    ensures forall k :: GetLock(RegisterOnchainBook(b, secret, h, block, true), k) == GetLock(b, k)
  {
    var lock := ClaimableLock(b, h, block);
    if lock.Some? {
      MoveOnchainIndexes(b, lock.value, secret, h);
      MoveOnchainAmount(b, lock.value, secret, h);
      MovedLockSameList(b, MoveOnchain(b, lock.value, secret, h));
    }
  }

  /** An on-chain secret keeps the invariant exactly when the lock is moved and not copied. */
  lemma RegisterOnchainKeepsIff(b: Book, secret: Secret, h: SecretHash, block: nat, del: bool)
    requires LockInv(b)
    ensures LockInv(RegisterOnchainBook(b, secret, h, block, del)) <==> (del || ClaimableLock(b, h, block).None?)
  {
    if del {
      RegisterOnchainMoves(b, secret, h, block);
    }
  }

  /** An indexed lock is listed, and its amount is part of the locked amount. */
  lemma LockIsCounted(b: Book, l: Lock)
    requires LockInv(b) && GetLock(b, l.secrethash) == Some(l)
    ensures Encode(l) in b.pending && b.proof.Some? && l.amount <= AmountLocked(b)
  {
    if l.secrethash in b.locked {
      SumWithout(b.locked, LockAmount, l.secrethash);
    } else if l.secrethash in b.unlocked {
      SumWithout(b.unlocked, ProofAmount, l.secrethash);
    } else {
      SumWithout(b.onchain, ProofAmount, l.secrethash);
    }
  }
}
