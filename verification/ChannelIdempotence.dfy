/**
 Which state changes of a channel may be applied a second time, as happens to the
 change at the boundary of a snapshot and to messages that are sent again
 (`raiden_common/transfer/architecture.py`).
 */
module ChannelIdempotence {
  import opened LockCodec
  import opened ChannelState
  import opened ChannelTransitions
  import opened LockInvariant
  import opened ChannelRuns
  import opened ChannelSolvency
  import opened ChannelWithdraws
  import opened ChannelSanity
  import opened ChannelWitnesses

  /** Applying the step again, right away, leaves the channel as it is. */
  ghost predicate RepeatsQuietly(c: Channel, a: Action)
    requires Step(c, a).Next?
  {
    var d := Step(c, a).channel;
    Step(d, a).Next? && Step(d, a).channel == d
  }

  /** A transfer or an unlock cannot be sent again; a coop-settle can when it takes out nothing, with a new nonce. */
  ghost predicate Repeatable(c: Channel, a: Action) {
    match a
    case ASendLockedTransfer(_, _, _) => false
    case ASendUnlock(_, _, _) => false
    case ACoopSettle(_) => ValidCoopSettle(c, MaxWithdraw(c.our, c.partner)) ==> MaxWithdraw(c.our, c.partner) > 0
    case _ => true
  }

  /** The pending withdraws are a dictionary: no total comes twice. */
  ghost predicate DistinctTotals(ws: seq<Withdraw>) {
    forall i, j :: 0 <= i < j < |ws| ==> ws[i].total != ws[j].total
  }

  /** What holds of the dictionaries and lists of every channel, whatever happened to it. */
  ghost predicate Keyed(c: Channel) {
    && Shape(c.our.book) && Shape(c.partner.book)
    && DistinctTotals(c.our.withdraws) && DistinctTotals(c.partner.withdraws)
  }

  /* ---- what this node sends ---- */

  lemma SentTransferIsListed(c: Channel, a: Action)
    requires a.ASendLockedTransfer? && Step(c, a).Next?
    ensures Step(Step(c, a).channel, a).Raised?
  {
    var t := CreateLockedTransfer(c, a.amount, a.expiration, a.secrethash).value;
    assert Encode(t.lock) in c.our.book.pending + [Encode(t.lock)];
  }

  lemma SentUnlockIsGone(c: Channel, a: Action)
    requires a.ASendUnlock? && Step(c, a).Next? && Shape(c.our.book)
    ensures Step(Step(c, a).channel, a).Raised?
  {
    assert GetLock(c.our.book, a.secrethash).value.secrethash == a.secrethash;
    assert GetLock(Step(c, a).channel.our.book, a.secrethash).None?;
  }

  lemma SentExpiryIsGone(c: Channel, a: Action)
    requires a.ASendLockExpired? && Step(c, a).Next? && Shape(c.our.book)
    ensures RepeatsQuietly(c, a)
  {
    if Encode(a.lock) in c.our.book.pending {
      RemoveFirstMembers(c.our.book.pending, Encode(a.lock));
    }
  }

  /* ---- secrets ---- */

  lemma RegisterTwice(b: Book, secret: Secret, h: SecretHash)
    ensures var d := RegisterSecretBook(b, secret, h); RegisterSecretBook(d, secret, h) == d
  {
  }

  lemma RegisterOnchainTwice(b: Book, secret: Secret, h: SecretHash, block: nat, del: bool)
    ensures var d := RegisterOnchainBook(b, secret, h, block, del); RegisterOnchainBook(d, secret, h, block, del) == d
  {
    var d := RegisterOnchainBook(b, secret, h, block, del);
    if ClaimableLock(b, h, block).Some? && !del {
      assert d.onchain[h := PartialProof(ClaimableLock(b, h, block).value, secret)] == d.onchain;
    }
  }

  lemma SecretTwice(c: Channel, a: Action)
    requires a.ARegisterSecret? || a.ARegisterOnchainSecret?
    ensures Step(c, a).Next? && RepeatsQuietly(c, a)
  {
    if a.ARegisterSecret? {
      RegisterTwice(c.our.book, a.secret, a.secrethash);
      RegisterTwice(c.partner.book, a.secret, a.secrethash);
    } else {
      RegisterOnchainTwice(c.our.book, a.secret, a.secrethash, a.revealBlock, a.deleteLock);
      RegisterOnchainTwice(c.partner.book, a.secret, a.secrethash, a.revealBlock, a.deleteLock);
    }
  }

  /* ---- messages of the partner: each nonce is used once ---- */

  lemma TransferMessageTwice(c: Channel, a: Action)
    requires (a.AReceiveLockedTransfer? || a.AReceiveUnlock? || a.AReceiveLockExpired?) && Step(c, a).Next?
    ensures RepeatsQuietly(c, a)
  {
  }

  lemma StaleRequest(c: Channel, m: WithdrawMessage, coop: bool, block: nat)
    requires m.nonce != c.partner.nonce + 1
    ensures DoReceiveWithdrawRequest(c, m, coop, block) == Next(c, [Invalid])
    ensures DoReceiveWithdrawConfirmation(c, m, block) == Next(c, [Invalid])
    ensures DoReceiveWithdrawExpired(c, m, block) == Next(c, [Invalid])
  {
  }

  lemma RequestTakesNonce(c: Channel, m: WithdrawMessage, coop: bool, block: nat)
    requires DoReceiveWithdrawRequest(c, m, coop, block).Next?
    ensures var d := DoReceiveWithdrawRequest(c, m, coop, block).channel; d == c || d.partner.nonce == m.nonce
  {
  }

  lemma AnswerTakesNonce(c: Channel, m: WithdrawMessage, block: nat)
    ensures var o := DoReceiveWithdrawConfirmation(c, m, block); o.Next? ==>
      o.channel == c || o.channel.partner.nonce == m.nonce
    ensures var o := DoReceiveWithdrawExpired(c, m, block); o.Next? ==>
      o.channel == c || o.channel.partner.nonce == m.nonce
  {
  }

  lemma WithdrawMessageTwice(c: Channel, a: Action)
    requires a.AReceiveWithdrawRequest? || a.AReceiveWithdrawConfirmation? || a.AReceiveWithdrawExpired?
    requires Step(c, a).Next?
    ensures RepeatsQuietly(c, a)
  {
    var d := Step(c, a).channel;
    if a.AReceiveWithdrawRequest? {
      RequestTakesNonce(c, a.m, a.coopSettle, a.block);
    } else {
      AnswerTakesNonce(c, a.m, a.block);
    }
    if d != c { StaleRequest(d, a.m, a.AReceiveWithdrawRequest? && a.coopSettle, a.block); }
  }

  /* ---- actions of the user ---- */

  lemma WithdrawTwice(c: Channel, total: int, block: nat)
    ensures var d := DoWithdraw(c, total, block).channel; DoWithdraw(d, total, block).channel == d
  {
    if ValidTotalWithdraw(c, total, false) {
      var w := Withdraw(total, InitialExpiration(block, c.revealTimeout), c.our.nonce + 1);
      RequestedFunds(c.our, c.partner, w, DoWithdraw(c, total, block).channel.our);
    }
  }

  lemma CoopSettleTwiceIff(c: Channel, block: nat)
    ensures var d := DoCoopSettle(c, block).channel;
      DoCoopSettle(d, block).channel == d <==> Repeatable(c, ACoopSettle(block))
  {
    var total := MaxWithdraw(c.our, c.partner);
    if ValidCoopSettle(c, total) {
      var d := DoCoopSettle(c, block).channel;
      var w := Withdraw(total, InitialExpiration(block, c.revealTimeout), c.our.nonce + 1);
      RequestedFunds(c.our, c.partner, w, d.our);
      PutOffchain(c.our.withdraws, w);
      assert MaxWithdraw(d.our, d.partner) == total;
      assert ValidCoopSettle(d, total) <==> total <= 0;
    }
  }

  lemma UserActionTwiceIff(c: Channel, a: Action)
    requires (a.AClose? || a.AWithdraw? || a.ACoopSettle? || a.ASetRevealTimeout?) && Step(c, a).Next?
    ensures RepeatsQuietly(c, a) <==> Repeatable(c, a)
  {
    match a
    case AWithdraw(total, block) => WithdrawTwice(c, total, block);
    case ACoopSettle(block) => CoopSettleTwiceIff(c, block);
    case AClose(_, _) =>
    case ASetRevealTimeout(_) =>
  }

  /* ---- blocks and on-chain events ---- */

  lemma ExpireLoopTwice(e: End, block: nat)
    ensures var f := ExpireLoop(e, e.withdraws, block).0; ExpireLoop(f, f.withdraws, block).0 == f
  {
    LoopExpiresPrefixState(e, block);
    var k := ExpiredPrefix(e.withdraws, block);
    assert k < |e.withdraws| ==> e.withdraws[k..][0] == e.withdraws[k];
  }

  lemma BlockTwice(c: Channel, block: nat)
    requires DoBlock(c, block).Next?
    ensures var d := DoBlock(c, block).channel; DoBlock(d, block).Next? && DoBlock(d, block).channel == d
  {
    ExpireLoopTwice(c.our, block);
  }

  lemma {:induction false} DropTwice(ws: seq<Withdraw>, total: int)
    requires DistinctTotals(ws)
    ensures DropWithdraw(DropWithdraw(ws, total), total) == DropWithdraw(ws, total)
    decreases |ws|
  {
    if ws != [] {
      if ws[0].total == total {
        assert forall i :: 0 <= i < |ws| - 1 ==> ws[1..][i] == ws[i + 1];
        DropUnknown(ws[1..], total);
      } else {
        DropTwice(ws[1..], total);
      }
    }
  }

  lemma ChainWithdrawTwice(c: Channel, participant: Address, total: nat)
    requires DistinctTotals(c.our.withdraws) && DistinctTotals(c.partner.withdraws)
    ensures var d := DoChainWithdraw(c, participant, total).channel; DoChainWithdraw(d, participant, total).channel == d
  {
    DropTwice(c.our.withdraws, total);
    DropTwice(c.partner.withdraws, total);
  }

  lemma CloseEventTwice(c: Channel, a: Action)
    requires (a.AClosed? || a.AUpdatedTransfer?) && Step(c, a).Next?
    ensures RepeatsQuietly(c, a)
  {
  }

  lemma SettleEventTwice(c: Channel, a: Action)
    requires (a.ASettled? || a.ABatchUnlock?) && Step(c, a).Next?
    ensures RepeatsQuietly(c, a)
  {
  }

  lemma DepositTwice(c: Channel, participant: Address, balance: nat)
    ensures var d := DoDeposit(c, participant, balance).channel; DoDeposit(d, participant, balance).channel == d
  {
  }

  lemma ChainEventTwice(c: Channel, a: Action)
    requires !TouchesLocks(a) && !IsRequest(a) && Step(c, a).Next? && Keyed(c)
    ensures RepeatsQuietly(c, a)
  {
    if a.ABlock? {
      BlockTwice(c, a.block);
    } else if a.AClosed? || a.AUpdatedTransfer? {
      CloseEventTwice(c, a);
    } else if a.ASettled? || a.ABatchUnlock? {
      SettleEventTwice(c, a);
    } else if a.ADeposit? {
      DepositTwice(c, a.participant, a.balance);
    } else {
      ChainWithdrawTwice(c, a.participant, a.withdrawn);
    }
  }

  /* ---- all state changes ---- */

  /** A state change is idempotent exactly when it is repeatable. */
  lemma StepIsIdempotentIff(c: Channel, a: Action)
    requires Keyed(c) && Step(c, a).Next?
    ensures RepeatsQuietly(c, a) <==> Repeatable(c, a)
  {
    if a.ASendLockedTransfer? {
      SentTransferIsListed(c, a);
    } else if a.ASendUnlock? {
      SentUnlockIsGone(c, a);
    } else if a.ASendLockExpired? {
      SentExpiryIsGone(c, a);
    } else if a.ARegisterSecret? || a.ARegisterOnchainSecret? {
      SecretTwice(c, a);
    } else if a.AReceiveLockedTransfer? || a.AReceiveUnlock? || a.AReceiveLockExpired? {
      TransferMessageTwice(c, a);
    } else if a.AReceiveWithdrawRequest? || a.AReceiveWithdrawConfirmation? || a.AReceiveWithdrawExpired? {
      WithdrawMessageTwice(c, a);
    } else if IsRequest(a) {
      UserActionTwiceIff(c, a);
    } else {
      ChainEventTwice(c, a);
    }
  }

  /* ---- the dictionaries stay dictionaries ---- */

  lemma ConsDistinct(w: Withdraw, ws: seq<Withdraw>)
    requires DistinctTotals(ws) && forall x :: x in ws ==> x.total != w.total
    ensures DistinctTotals([w] + ws)
  {
    var all := [w] + ws;
    forall i, j | 0 <= i < j < |all| ensures all[i].total != all[j].total {
      assert all[j] == ws[j - 1] && ws[j - 1] in ws;
      if i > 0 { assert all[i] == ws[i - 1]; }
    }
  }

  lemma {:induction false} PutDistinct(ws: seq<Withdraw>, w: Withdraw)
    requires DistinctTotals(ws)
    ensures DistinctTotals(PutWithdraw(ws, w))
    ensures forall x :: x in PutWithdraw(ws, w) ==> x == w || x in ws
    decreases |ws|
  {
    if ws != [] {
      var rest := ws[1..];
      assert forall i :: 0 <= i < |rest| ==> rest[i] == ws[i + 1];
      PutDistinct(rest, w);
      if ws[0].total == w.total { ConsDistinct(w, rest); } else { ConsDistinct(ws[0], PutWithdraw(rest, w)); }
    }
  }

  lemma {:induction false} DropDistinct(ws: seq<Withdraw>, total: int)
    requires DistinctTotals(ws)
    ensures DistinctTotals(DropWithdraw(ws, total))
    ensures forall x :: x in DropWithdraw(ws, total) ==> x in ws
    decreases |ws|
  {
    if ws != [] {
      var rest := ws[1..];
      assert forall i :: 0 <= i < |rest| ==> rest[i] == ws[i + 1];
      DropDistinct(rest, total);
      if ws[0].total != total { ConsDistinct(ws[0], DropWithdraw(rest, total)); }
    }
  }

  ghost predicate Distinct(c: Channel) { DistinctTotals(c.our.withdraws) && DistinctTotals(c.partner.withdraws) }

  ghost predicate SameWithdraws(c: Channel, d: Channel) {
    c.our.withdraws == d.our.withdraws && c.partner.withdraws == d.partner.withdraws
  }

  lemma RequestKeepsDistinct(c: Channel, m: WithdrawMessage, coop: bool, block: nat)
    requires Distinct(c) && DoReceiveWithdrawRequest(c, m, coop, block).Next?
    ensures Distinct(DoReceiveWithdrawRequest(c, m, coop, block).channel)
  {
    if ValidWithdrawRequest(c, m) {
      PutDistinct(c.partner.withdraws, Withdraw(m.total, m.expiration, m.nonce));
      var d := StoreRequest(c, m);
      if d.our.coopSettle.Some? {
        var o := AnswerOurCoopSettle(d, d.our.coopSettle.value, m, block);
        assert o.Next? ==> SameWithdraws(d, o.channel);
      } else {
        PutDistinct(d.our.withdraws, Withdraw(MaxWithdraw(d.our, d.partner), m.expiration, d.our.nonce + 1));
      }
    }
  }

  lemma ExpiredKeepsDistinct(c: Channel, m: WithdrawMessage, block: nat)
    requires Distinct(c)
    ensures Distinct(DoReceiveWithdrawExpired(c, m, block).channel)
  {
    DropDistinct(c.partner.withdraws, m.total);
  }

  lemma WithdrawKeepsDistinct(c: Channel, total: int, block: nat)
    requires Distinct(c)
    ensures Distinct(DoWithdraw(c, total, block).channel) && Distinct(DoCoopSettle(c, block).channel)
  {
    var expiration := InitialExpiration(block, c.revealTimeout);
    PutDistinct(c.our.withdraws, Withdraw(total, expiration, c.our.nonce + 1));
    PutDistinct(c.our.withdraws, Withdraw(MaxWithdraw(c.our, c.partner), expiration, c.our.nonce + 1));
  }

  lemma BlockKeepsDistinct(c: Channel, block: nat)
    requires Distinct(c) && DoBlock(c, block).Next?
    ensures Distinct(DoBlock(c, block).channel)
  {
    LoopExpiresPrefixState(c.our, block);
  }

  lemma ChainWithdrawKeepsDistinct(c: Channel, participant: Address, total: nat)
    requires Distinct(c)
    ensures Distinct(DoChainWithdraw(c, participant, total).channel)
  {
    DropDistinct(c.our.withdraws, total);
    DropDistinct(c.partner.withdraws, total);
  }

  lemma PartnerWithdrawsFrame(c: Channel, a: Action)
    requires !MovesOurWithdraws(a) && !a.AReceiveWithdrawExpired? && Step(c, a).Next?
    ensures Step(c, a).channel.partner.withdraws == c.partner.withdraws
  {
  }

  lemma OtherStepKeepsDistinct(c: Channel, a: Action)
    requires Distinct(c) && !MovesOurWithdraws(a) && !a.AReceiveWithdrawExpired? && Step(c, a).Next?
    ensures Distinct(Step(c, a).channel)
  {
    OurWithdrawsFrame(c, a);
    PartnerWithdrawsFrame(c, a);
  }

  lemma RequestStepKeepsDistinct(c: Channel, a: Action)
    requires Distinct(c) && (a.AWithdraw? || a.ACoopSettle? || a.AReceiveWithdrawRequest?) && Step(c, a).Next?
    ensures Distinct(Step(c, a).channel)
  {
    match a
    case AWithdraw(total, block) => WithdrawKeepsDistinct(c, total, block);
    case ACoopSettle(block) => WithdrawKeepsDistinct(c, 0, block);
    case AReceiveWithdrawRequest(m, coop, block) => RequestKeepsDistinct(c, m, coop, block);
  }

  lemma DroppingStepKeepsDistinct(c: Channel, a: Action)
    requires Distinct(c) && (a.AReceiveWithdrawExpired? || a.ABlock? || a.AChainWithdraw?) && Step(c, a).Next?
    ensures Distinct(Step(c, a).channel)
  {
    match a
    case AReceiveWithdrawExpired(m, block) => ExpiredKeepsDistinct(c, m, block);
    case ABlock(block) => BlockKeepsDistinct(c, block);
    case AChainWithdraw(participant, total) => ChainWithdrawKeepsDistinct(c, participant, total);
  }

  lemma StepKeepsDistinct(c: Channel, a: Action)
    requires Distinct(c) && Step(c, a).Next?
    ensures Distinct(Step(c, a).channel)
  {
    if a.AWithdraw? || a.ACoopSettle? || a.AReceiveWithdrawRequest? {
      RequestStepKeepsDistinct(c, a);
    } else if a.AReceiveWithdrawExpired? || a.ABlock? || a.AChainWithdraw? {
      DroppingStepKeepsDistinct(c, a);
    } else {
      OtherStepKeepsDistinct(c, a);
    }
  }

  ghost predicate KeepsKeyed(c: Channel, d: Channel) { Keyed(c) ==> Keyed(d) }

  lemma StepKeepsKeyed(r: Run, i: nat)
    requires StepAt(r, i)
    ensures KeepsKeyed(r.states[i], r.states[i + 1])
  {
    if Keyed(r.states[i]) {
      StepBooks(r.states[i], r.actions[i]);
      StepKeepsDistinct(r.states[i], r.actions[i]);
    }
  }

  lemma {:induction false} KeyedAlong(states: seq<Channel>, n: nat)
    requires n < |states| && Keyed(states[0])
    requires forall k :: 0 <= k < n ==> KeepsKeyed(states[k], states[k + 1])
    ensures Keyed(states[n])
  {
    if n > 0 {
      KeyedAlong(states, n - 1);
      assert KeepsKeyed(states[n - 1], states[n - 1 + 1]);
    }
  }

  /** Anywhere in any run, the state change just made can be made again without effect exactly when it is repeatable. */
  lemma RunIsIdempotentIff(r: Run, i: nat)
    requires IsRun(r) && Keyed(r.states[0]) && i < |r.actions|
    ensures StepAt(r, i)
    ensures Step(r.states[i + 1], r.actions[i]).Next? && Step(r.states[i + 1], r.actions[i]).channel == r.states[i + 1]
       <==> Repeatable(r.states[i], r.actions[i])
  {
    forall k | 0 <= k < i ensures KeepsKeyed(r.states[k], r.states[k + 1]) {
      assert StepAt(r, k);
      StepKeepsKeyed(r, k);
    }
    KeyedAlong(r.states, i);
    assert StepAt(r, i);
    StepIsIdempotentIff(r.states[i], r.actions[i]);
  }

  /* ---- an input for which it fails ---- */

  /** With nothing to take out, each coop-settle of the user is sent anew and uses up a nonce. */
  lemma EmptyCoopSettleRepeats(c: Channel, n: nat, block: nat)
    requires IsFresh(c, 0, n)
    ensures Keyed(c) && !Repeatable(c, ACoopSettle(block))
    ensures var d := DoCoopSettle(c, block).channel;
      d.our.nonce == 1 && DoCoopSettle(d, block).channel.our.nonce == 2
  {
    NewChannelInv(c, 0, n);
    assert ValidCoopSettle(c, 0);
    var d := DoCoopSettle(c, block).channel;
    assert d.our.withdraws == [Withdraw(0, InitialExpiration(block, c.revealTimeout), 1)];
    CoopSettleTwiceIff(c, block);
  }
}
