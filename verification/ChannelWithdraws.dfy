/**
 Pending withdraws and cooperative settlement: the order in which withdraws are
 kept, the loop that expires them, and how a coop-settle splits the deposits.
 */
module ChannelWithdraws {
  import opened Options
  import opened ChannelState
  import opened ChannelTransitions
  import opened ChannelRuns
  import opened ChannelSolvency

  /* ---- totals in insertion order ---- */

  /** Strictly increasing totals, all above `low`. */
  ghost predicate Ascending(ws: seq<Withdraw>, low: int) {
    && (forall i, j :: 0 <= i < j < |ws| ==> ws[i].total < ws[j].total)
    && (forall i :: 0 <= i < |ws| ==> ws[i].total > low)
  }

  /** Positive totals that are strictly increasing. */
  ghost predicate Ordered(ws: seq<Withdraw>) { Ascending(ws, 0) }

  /** The total is pending already, or none is larger. */
  ghost predicate GoesLast(ws: seq<Withdraw>, total: int) {
    IsTotal(ws, total) || forall i :: 0 <= i < |ws| ==> ws[i].total <= total
  }

  lemma GoesLastRest(ws: seq<Withdraw>, low: int, total: int)
    requires Ascending(ws, low) && ws != [] && ws[0].total != total
    ensures GoesLast(ws, total) <==> GoesLast(ws[1..], total) && ws[0].total < total
  {
    assert ws == [ws[0]] + ws[1..];
    ConsTotals(ws[0], ws[1..]);
    if IsTotal(ws[1..], total) {
      var i :| 0 <= i < |ws[1..]| && ws[1..][i].total == total;
      assert ws[i + 1].total == total;
    }
    if GoesLast(ws[1..], total) && ws[0].total < total && !IsTotal(ws[1..], total) {
      forall i | 0 <= i < |ws| ensures ws[i].total <= total {
        if i > 0 { assert ws[i] == ws[1..][i - 1]; }
      }
    }
  }

  lemma AscendingTail(w: Withdraw, ws: seq<Withdraw>, low: int)
    requires Ascending([w] + ws, low)
    ensures w.total > low && Ascending(ws, w.total)
  {
    var all := [w] + ws;
    assert all[0] == w;
    forall i | 0 <= i < |ws| ensures ws[i] == all[i + 1] && ws[i].total > w.total {
      assert all[0].total < all[i + 1].total;
    }
  }

  lemma AscendingPrepend(w: Withdraw, ws: seq<Withdraw>, low: int)
    requires w.total > low && Ascending(ws, w.total)
    ensures Ascending([w] + ws, low)
  {
    var all := [w] + ws;
    forall i | 0 < i < |all| ensures all[i].total > w.total { assert all[i] == ws[i - 1]; }
  }

  lemma AscendingCons(w: Withdraw, ws: seq<Withdraw>, low: int)
    ensures Ascending([w] + ws, low) <==> w.total > low && Ascending(ws, w.total)
  {
    if Ascending([w] + ws, low) { AscendingTail(w, ws, low); }
    if w.total > low && Ascending(ws, w.total) { AscendingPrepend(w, ws, low); }
  }

  /** Storing a total keeps the order exactly when it is above `low` and is pending already or the largest. */
  lemma {:induction false} PutAscendingIff(ws: seq<Withdraw>, low: int, w: Withdraw)
    requires Ascending(ws, low)
    ensures Ascending(PutWithdraw(ws, w), low) <==> w.total > low && GoesLast(ws, w.total)
    decreases |ws|
  {
    var put := PutWithdraw(ws, w);
    if ws == [] {
      assert put[0] == w;
    } else {
      assert ws == [ws[0]] + ws[1..];
      AscendingCons(ws[0], ws[1..], low);
      if ws[0].total == w.total {
        AscendingCons(w, ws[1..], low);
      } else {
        AscendingCons(ws[0], PutWithdraw(ws[1..], w), low);
        PutAscendingIff(ws[1..], ws[0].total, w);
        GoesLastRest(ws, low, w.total);
      }
    }
  }

  lemma LargestGoesLast(ws: seq<Withdraw>, total: int)
    requires ws == [] || total >= OffchainWithdraw(ws)
    ensures GoesLast(ws, total)
  {
    OffchainIsLargest(ws);
  }

  lemma {:induction false} DropAscending(ws: seq<Withdraw>, low: int, total: int)
    requires Ascending(ws, low)
    ensures Ascending(DropWithdraw(ws, total), low)
    decreases |ws|
  {
    if ws != [] && ws[0].total != total {
      assert ws == [ws[0]] + ws[1..];
      AscendingCons(ws[0], ws[1..], low);
      AscendingCons(ws[0], DropWithdraw(ws[1..], total), low);
      DropAscending(ws[1..], ws[0].total, total);
    }
  }

  /* ---- the expiry loop ---- */

  ghost predicate Expired(w: Withdraw, block: nat) { block >= SenderThreshold(w.expiration) }

  /** How many withdraws at the front of the list are expired. */
  function ExpiredPrefix(ws: seq<Withdraw>, block: nat): (k: nat)
    ensures k <= |ws|
    ensures forall i :: 0 <= i < k ==> Expired(ws[i], block)
    ensures k < |ws| ==> !Expired(ws[k], block)
  {
    if ws == [] || block < SenderThreshold(ws[0].expiration) then 0 else
    assert forall i :: 1 <= i < |ws| ==> ws[i] == ws[1..][i - 1];
    1 + ExpiredPrefix(ws[1..], block)
  }

  ghost function ExpiredEvents(ws: seq<Withdraw>, nonce: nat): seq<Event> {
    seq(|ws|, i requires 0 <= i < |ws| => SendWithdrawExpired(ws[i].total, nonce + 1 + i, ws[i].expiration))
  }

  lemma {:induction false} LoopExpiresPrefixState(e: End, block: nat)
    ensures var k := ExpiredPrefix(e.withdraws, block);
      var f := ExpireLoop(e, e.withdraws, block).0;
      && f.withdraws == e.withdraws[k..]
      && f.withdrawsExpired == e.withdrawsExpired + e.withdraws[..k]
      && f.nonce == e.nonce + k
    decreases |e.withdraws|
  {
    var ws := e.withdraws;
    if ws != [] && block >= SenderThreshold(ws[0].expiration) {
      var next := ExpireOne(e, ws[0]);
      assert next.withdraws == ws[1..];
      LoopExpiresPrefixState(next, block);
      var k := ExpiredPrefix(ws, block);
      assert ws[..k] == [ws[0]] + ws[1..][..k - 1];
      assert e.withdrawsExpired + ws[..k] == next.withdrawsExpired + ws[1..][..k - 1];
    }
  }

  lemma {:induction false} LoopExpiresPrefixEvents(e: End, block: nat)
    ensures ExpireLoop(e, e.withdraws, block).1
         == ExpiredEvents(e.withdraws[..ExpiredPrefix(e.withdraws, block)], e.nonce)
    decreases |e.withdraws|
  {
    var ws := e.withdraws;
    if ws != [] && block >= SenderThreshold(ws[0].expiration) {
      var next := ExpireOne(e, ws[0]);
      assert next.withdraws == ws[1..];
      LoopExpiresPrefixEvents(next, block);
      var k := ExpiredPrefix(ws, block);
      assert ws[..k] == [ws[0]] + ws[1..][..k - 1];
    }
  }

  /** The loop removes exactly the expired prefix, with consecutive nonces. */
  lemma LoopExpiresPrefix(e: End, block: nat)
    ensures var k := ExpiredPrefix(e.withdraws, block);
      var r := ExpireLoop(e, e.withdraws, block);
      && r.0.withdraws == e.withdraws[k..]
      && r.0.withdrawsExpired == e.withdrawsExpired + e.withdraws[..k]
      && r.0.nonce == e.nonce + k
      && r.1 == ExpiredEvents(e.withdraws[..k], e.nonce)
  {
    LoopExpiresPrefixState(e, block);
    LoopExpiresPrefixEvents(e, block);
  }

  /** The loop leaves no expired withdraw behind exactly when no live one stands before an expired one. */
  lemma LoopExpiresAllIff(e: End, block: nat)
    ensures (forall w :: w in ExpireLoop(e, e.withdraws, block).0.withdraws ==> !Expired(w, block))
       <==> (forall i, j :: 0 <= i < j < |e.withdraws| && Expired(e.withdraws[j], block) ==>
               Expired(e.withdraws[i], block))
  {
    LoopExpiresPrefix(e, block);
    var ws := e.withdraws;
    var k := ExpiredPrefix(ws, block);
    if forall w :: w in ws[k..] ==> !Expired(w, block) {
      forall i, j | 0 <= i < j < |ws| && Expired(ws[j], block) ensures Expired(ws[i], block) {
        assert ws == ws[..k] + ws[k..];
      }
    }
    if forall i, j :: 0 <= i < j < |ws| && Expired(ws[j], block) ==> Expired(ws[i], block) {
      forall w | w in ws[k..] ensures !Expired(w, block) {
        var i :| 0 <= i < |ws[k..]| && ws[k..][i] == w;
        assert ws[k + i] == w;
      }
    }
  }

  /* ---- the order over runs ---- */

  /** The partner's request is answered by accepting a coop-settle. */
  ghost predicate AcceptsCoopSettle(c: Channel, m: WithdrawMessage, coop: bool) {
    && ValidWithdrawRequest(c, m) && c.our.coopSettle.None? && coop
    && MaxWithdraw(c.partner, c.our) == m.total
    && c.partner.book.pending == [] && c.our.book.pending == []
    && PriorToClosed(GetStatus(c))
  }

  /** The total that a step enters for this node because of a coop-settle. */
  ghost predicate EntersCoopSettle(c: Channel, a: Action) {
    match a
    case ACoopSettle(_) => ValidCoopSettle(c, MaxWithdraw(c.our, c.partner))
    case AReceiveWithdrawRequest(m, coop, _) => AcceptsCoopSettle(c, m, coop)
    case _ => false
  }

  /** A coop-settle enters a positive total that belongs at the end of the pending ones. */
  ghost predicate CoopSettleInOrder(c: Channel, a: Action) {
    EntersCoopSettle(c, a) ==>
      MaxWithdraw(c.our, c.partner) > 0 && GoesLast(c.our.withdraws, MaxWithdraw(c.our, c.partner))
  }

  /** While balances are not negative, all that matters is that a coop-settle takes out something. */
  lemma FundedInOrderIff(c: Channel, a: Action)
    requires Funded(c)
    ensures CoopSettleInOrder(c, a) <==> (EntersCoopSettle(c, a) ==> MaxWithdraw(c.our, c.partner) > 0)
  {
    LargestGoesLast(c.our.withdraws, MaxWithdraw(c.our, c.partner));
  }

  lemma ExpireLoopAscending(e: End, low: int, block: nat)
    requires Ascending(e.withdraws, low)
    ensures Ascending(ExpireLoop(e, e.withdraws, block).0.withdraws, low)
  {
    LoopExpiresPrefixState(e, block);
    var k := ExpiredPrefix(e.withdraws, block);
    assert forall i :: 0 <= i < |e.withdraws| - k ==> e.withdraws[k..][i] == e.withdraws[k + i];
  }

  lemma CoopSettleOrderIff(c: Channel, block: nat)
    requires Ordered(c.our.withdraws)
    ensures Ordered(DoCoopSettle(c, block).channel.our.withdraws) <==> CoopSettleInOrder(c, ACoopSettle(block))
  {
    var total := MaxWithdraw(c.our, c.partner);
    if ValidCoopSettle(c, total) {
      PutAscendingIff(c.our.withdraws, 0, Withdraw(total, InitialExpiration(block, c.revealTimeout), c.our.nonce + 1));
    }
  }

  lemma WithdrawOrdered(c: Channel, total: int, block: nat)
    requires Ordered(c.our.withdraws)
    ensures Ordered(DoWithdraw(c, total, block).channel.our.withdraws)
  {
    if ValidTotalWithdraw(c, total, false) {
      LargestGoesLast(c.our.withdraws, total);
      PutAscendingIff(c.our.withdraws, 0, Withdraw(total, InitialExpiration(block, c.revealTimeout), c.our.nonce + 1));
    }
  }

  lemma AcceptOrderIff(c: Channel, m: WithdrawMessage)
    requires Ordered(c.our.withdraws)
    ensures AcceptCoopSettle(c, m).Next?
    ensures Ordered(AcceptCoopSettle(c, m).channel.our.withdraws)
       <==> (c.our.book.pending == [] && PriorToClosed(GetStatus(c)) ==>
               MaxWithdraw(c.our, c.partner) > 0 && GoesLast(c.our.withdraws, MaxWithdraw(c.our, c.partner)))
  {
    if c.our.book.pending == [] && PriorToClosed(GetStatus(c)) {
      PutAscendingIff(c.our.withdraws, 0, Withdraw(MaxWithdraw(c.our, c.partner), m.expiration, c.our.nonce + 1));
    }
  }

  lemma RequestOrderIff(c: Channel, m: WithdrawMessage, coop: bool, block: nat)
    requires Ordered(c.our.withdraws) && DoReceiveWithdrawRequest(c, m, coop, block).Next?
    ensures Ordered(DoReceiveWithdrawRequest(c, m, coop, block).channel.our.withdraws)
       <==> CoopSettleInOrder(c, AReceiveWithdrawRequest(m, coop, block))
  {
    if ValidWithdrawRequest(c, m) {
      var d := StoreRequest(c, m);
      assert MaxWithdraw(d.our, d.partner) == MaxWithdraw(c.our, c.partner);
      assert MaxWithdraw(d.partner, d.our) == MaxWithdraw(c.partner, c.our);
      AcceptOrderIff(d, m);
      if d.our.coopSettle.Some? && AnswerOurCoopSettle(d, d.our.coopSettle.value, m, block).Next? {
        AnswerFunds(d, d.our.coopSettle.value, m, block);
      }
    }
  }

  /** Whether a step may change our own pending withdraws. */
  ghost predicate MovesOurWithdraws(a: Action) {
    a.AWithdraw? || a.ACoopSettle? || a.AReceiveWithdrawRequest? || a.ABlock? || a.AChainWithdraw?
  }

  lemma OurWithdrawsFrame(c: Channel, a: Action)
    requires !MovesOurWithdraws(a) && Step(c, a).Next?
    ensures Step(c, a).channel.our.withdraws == c.our.withdraws
  {
    if !TouchesLocks(a) {
      match a
      case AReceiveWithdrawConfirmation(m, block) => ConfirmationFunds(c, m, block);
      case _ =>
    }
  }

  /** Our pending totals stay positive and strictly increasing exactly when a coop-settle enters its total in order. */
  lemma StepKeepsOrderIff(c: Channel, a: Action)
    requires Ordered(c.our.withdraws) && Step(c, a).Next?
    ensures Ordered(Step(c, a).channel.our.withdraws) <==> CoopSettleInOrder(c, a)
  {
    if !MovesOurWithdraws(a) {
      OurWithdrawsFrame(c, a);
    } else {
      match a
      case AWithdraw(total, block) => WithdrawOrdered(c, total, block);
      case ACoopSettle(block) => CoopSettleOrderIff(c, block);
      case AReceiveWithdrawRequest(m, coop, block) => RequestOrderIff(c, m, coop, block);
      case ABlock(block) => ExpireLoopAscending(c.our, 0, block);
      case AChainWithdraw(_, total) => DropAscending(c.our.withdraws, 0, total);
    }
  }

  /** The step keeps the order of our pending totals, if they are in order. */
  ghost predicate KeepsOrder(c: Channel, d: Channel) { Ordered(c.our.withdraws) ==> Ordered(d.our.withdraws) }

  lemma {:induction false} OrderKeptAlong(states: seq<Channel>, n: nat)
    requires n < |states| && Ordered(states[0].our.withdraws)
    requires forall k :: 0 <= k < n ==> KeepsOrder(states[k], states[k + 1])
    ensures Ordered(states[n].our.withdraws)
  {
    if n > 0 {
      OrderKeptAlong(states, n - 1);
      assert KeepsOrder(states[n - 1], states[n - 1 + 1]);
    }
  }

  lemma InOrderKeeps(r: Run, i: nat)
    requires IsRun(r) && i < |r.actions| && CoopSettleInOrder(r.states[i], r.actions[i])
    ensures KeepsOrder(r.states[i], r.states[i + 1])
  {
    assert StepAt(r, i);
    if Ordered(r.states[i].our.withdraws) { StepKeepsOrderIff(r.states[i], r.actions[i]); }
  }

  /**
   In any run, our pending totals are in order in all states exactly when every
   coop-settle enters its total in order.
   */
  lemma RunKeepsOrderIff(r: Run)
    requires IsRun(r) && Ordered(r.states[0].our.withdraws)
    ensures (forall n :: 0 <= n < |r.states| ==> Ordered(r.states[n].our.withdraws))
       <==> (forall i :: 0 <= i < |r.actions| ==> CoopSettleInOrder(r.states[i], r.actions[i]))
  {
    if forall i :: 0 <= i < |r.actions| ==> CoopSettleInOrder(r.states[i], r.actions[i]) {
      forall k | 0 <= k < |r.actions| ensures KeepsOrder(r.states[k], r.states[k + 1]) { InOrderKeeps(r, k); }
      forall n | 0 <= n < |r.states| ensures Ordered(r.states[n].our.withdraws) { OrderKeptAlong(r.states, n); }
    }
    if forall n :: 0 <= n < |r.states| ==> Ordered(r.states[n].our.withdraws) {
      forall i | 0 <= i < |r.actions| ensures CoopSettleInOrder(r.states[i], r.actions[i]) {
        assert StepAt(r, i);
        StepKeepsOrderIff(r.states[i], r.actions[i]);
      }
    }
  }

  ghost predicate StartsCoopSettle(a: Action) { a.ACoopSettle? || (a.AReceiveWithdrawRequest? && a.coopSettle) }

  /** In every run without a coop-settle our pending totals stay positive and strictly increasing. */
  lemma RunKeepsOrder(r: Run, n: nat)
    requires IsRun(r) && n < |r.states| && Ordered(r.states[0].our.withdraws)
    requires forall i :: 0 <= i < |r.actions| ==> !StartsCoopSettle(r.actions[i])
    ensures Ordered(r.states[n].our.withdraws)
  {
    forall i | 0 <= i < |r.actions| ensures CoopSettleInOrder(r.states[i], r.actions[i]) {
      assert !StartsCoopSettle(r.actions[i]);
    }
    RunKeepsOrderIff(r);
  }

  /* ---- expirations over runs ---- */

  ghost predicate ExpirationsSorted(ws: seq<Withdraw>) {
    forall i, j :: 0 <= i < j < |ws| ==> ws[i].expiration <= ws[j].expiration
  }

  ghost predicate ExpireBy(ws: seq<Withdraw>, limit: int) {
    forall i :: 0 <= i < |ws| ==> ws[i].expiration <= limit
  }

  lemma {:induction false} PutFreshAppends(ws: seq<Withdraw>, w: Withdraw)
    requires forall i :: 0 <= i < |ws| ==> ws[i].total != w.total
    ensures PutWithdraw(ws, w) == ws + [w]
  {
    if ws != [] {
      PutFreshAppends(ws[1..], w);
    }
  }

  /** Deleting a key leaves a list without one position, or the same list. */
  lemma {:induction false} DropSkips(ws: seq<Withdraw>, total: int) returns (k: nat)
    ensures k <= |ws|
    ensures DropWithdraw(ws, total) == if k == |ws| then ws else ws[..k] + ws[k + 1..]
  {
    if ws == [] || ws[0].total == total {
      k := 0;
    } else {
      var k' := DropSkips(ws[1..], total);
      k := k' + 1;
    }
  }

  lemma DropKeepsSorted(ws: seq<Withdraw>, total: int, limit: int)
    requires ExpirationsSorted(ws) && ExpireBy(ws, limit)
    ensures ExpirationsSorted(DropWithdraw(ws, total)) && ExpireBy(DropWithdraw(ws, total), limit)
  {
    var k := DropSkips(ws, total);
  }

  lemma {:induction false} ExpireLoopSorted(e: End, ws: seq<Withdraw>, block: nat, limit: int)
    requires ExpirationsSorted(e.withdraws) && ExpireBy(e.withdraws, limit) && e.coopSettle.None?
    ensures ExpirationsSorted(ExpireLoop(e, ws, block).0.withdraws)
    ensures ExpireBy(ExpireLoop(e, ws, block).0.withdraws, limit)
    ensures ExpireLoop(e, ws, block).0.coopSettle.None?
    decreases |ws|
  {
    if ws != [] && block >= SenderThreshold(ws[0].expiration) {
      DropKeepsSorted(e.withdraws, ws[0].total, limit);
      ExpireLoopSorted(ExpireOne(e, ws[0]), ws[1..], block, limit);
    }
  }

  /** At block `now`: no coop-settle, and withdraws that expire in the order they were requested. */
  ghost predicate TimedInv(c: Channel, now: nat) {
    && c.our.coopSettle.None?
    && ExpirationsSorted(c.our.withdraws)
    && ExpireBy(c.our.withdraws, InitialExpiration(now, c.revealTimeout))
  }

  /** A step at block `now` that starts no coop-settle and does not lower the reveal timeout. */
  ghost predicate TimedStep(c: Channel, a: Action, now: nat) {
    && (a.AWithdraw? ==> a.block == now)
    && !a.ACoopSettle?
    && (a.AReceiveWithdrawRequest? ==> !a.coopSettle)
    && (a.ASetRevealTimeout? ==> a.timeout >= c.revealTimeout)
  }

  lemma TimedWithdraw(c: Channel, total: int, now: nat)
    requires TimedInv(c, now)
    ensures TimedInv(DoWithdraw(c, total, now).channel, now)
  {
    if ValidTotalWithdraw(c, total, false) {
      OffchainIsLargest(c.our.withdraws);
      PutFreshAppends(c.our.withdraws, Withdraw(total, InitialExpiration(now, c.revealTimeout), c.our.nonce + 1));
    }
  }

  lemma TimedRequest(c: Channel, m: WithdrawMessage, block: nat, now: nat)
    requires TimedInv(c, now)
    ensures DoReceiveWithdrawRequest(c, m, false, block).Next?
    ensures TimedInv(DoReceiveWithdrawRequest(c, m, false, block).channel, now)
  {
  }

  lemma TimedFrame(c: Channel, a: Action)
    requires Step(c, a).Next? && !MovesOurWithdraws(a) && c.our.coopSettle.None?
    ensures Step(c, a).channel.our.coopSettle.None?
    ensures !a.ASetRevealTimeout? ==> Step(c, a).channel.revealTimeout == c.revealTimeout
    ensures a.ASetRevealTimeout? ==> Step(c, a).channel.revealTimeout in {c.revealTimeout, a.timeout}
  {
  }

  lemma TimedStepKeeps(c: Channel, a: Action, now: nat)
    requires TimedInv(c, now) && TimedStep(c, a, now) && Step(c, a).Next?
    ensures TimedInv(Step(c, a).channel, now)
  {
    if !MovesOurWithdraws(a) {
      OurWithdrawsFrame(c, a);
      TimedFrame(c, a);
    } else {
      match a
      case AWithdraw(total, block) => TimedWithdraw(c, total, block);
      case AReceiveWithdrawRequest(m, coop, block) => TimedRequest(c, m, block, now);
      case ABlock(block) => ExpireLoopSorted(c.our, c.our.withdraws, block, InitialExpiration(now, c.revealTimeout));
      case AChainWithdraw(_, total) => DropKeepsSorted(c.our.withdraws, total, InitialExpiration(now, c.revealTimeout));
    }
  }

  ghost predicate TimedRun(r: Run, clock: seq<nat>) {
    && IsRun(r) && |clock| == |r.states|
    && (forall i, j :: 0 <= i < j < |clock| ==> clock[i] <= clock[j])
    && (forall i :: 0 <= i < |r.actions| ==> TimedStep(r.states[i], r.actions[i], clock[i]))
  }

  lemma {:induction false} TimedRunKeeps(r: Run, clock: seq<nat>, n: nat)
    requires TimedRun(r, clock) && n < |r.states| && TimedInv(r.states[0], clock[0])
    ensures TimedInv(r.states[n], clock[n])
  {
    if n > 0 {
      TimedRunKeeps(r, clock, n - 1);
      assert StepAt(r, n - 1);
      assert TimedStep(r.states[n - 1], r.actions[n - 1], clock[n - 1]);
      TimedStepKeeps(r.states[n - 1], r.actions[n - 1], clock[n - 1]);
      assert clock[n - 1] <= clock[n];
    }
  }

  /**
   In a run whose blocks and reveal timeout never go back and which has no
   coop-settle, a new block expires every withdraw that is past its threshold,
   and only those.
   */
  lemma BlockExpiresExactlyTheExpired(r: Run, clock: seq<nat>, n: nat, w: Withdraw)
    requires TimedRun(r, clock) && TimedInv(r.states[0], clock[0])
    requires n < |r.actions| && r.actions[n].ABlock? && GetStatus(r.states[n]) == Opened
    requires w in r.states[n].our.withdraws
    ensures w in r.states[n + 1].our.withdraws <==> !Expired(w, r.actions[n].block)
    ensures Expired(w, r.actions[n].block) ==>
      exists nonce :: SendWithdrawExpired(w.total, nonce, w.expiration) in r.events[n]
  {
    TimedRunKeeps(r, clock, n);
    assert StepAt(r, n);
    SortedLoopExpiresAll(r.states[n].our, r.actions[n].block, w);
  }

  lemma SortedLoopExpiresAll(e: End, block: nat, w: Withdraw)
    requires ExpirationsSorted(e.withdraws) && w in e.withdraws
    ensures w in ExpireLoop(e, e.withdraws, block).0.withdraws <==> !Expired(w, block)
    ensures Expired(w, block) ==>
      exists nonce :: SendWithdrawExpired(w.total, nonce, w.expiration) in ExpireLoop(e, e.withdraws, block).1
  {
    LoopExpiresAllIff(e, block);
    LoopExpiresPrefix(e, block);
    var ws, k := e.withdraws, ExpiredPrefix(e.withdraws, block);
    var i :| 0 <= i < |ws| && ws[i] == w;
    assert ws == ws[..k] + ws[k..];
    if Expired(w, block) {
      assert w !in ws[k..];
      ExpiredEventAt(ws[..k], e.nonce, i);
    } else {
      assert ws[k..][i - k] == w;
    }
  }

  lemma ExpiredEventAt(ws: seq<Withdraw>, nonce: nat, i: nat)
    requires i < |ws|
    ensures SendWithdrawExpired(ws[i].total, nonce + 1 + i, ws[i].expiration) in ExpiredEvents(ws, nonce)
  {
    assert ExpiredEvents(ws, nonce)[i] == SendWithdrawExpired(ws[i].total, nonce + 1 + i, ws[i].expiration);
  }

  /* ---- the receiver of the expiry messages ---- */

  /** The message that `SendWithdrawExpired` becomes on the wire. */
  function ExpiryMessage(id: CanonicalId, sender: Address, w: Withdraw, nonce: nat): WithdrawMessage {
    WithdrawMessage(id, w.total, nonce, w.expiration, sender, sender, Some(sender))
  }

  /** The receiver's channel after the messages for the first `k` pending withdraws of its partner. */
  function ReceiveExpiries(c: Channel, ws: seq<Withdraw>, k: nat, block: nat): Outcome
    requires k <= |ws|
    decreases k
  {
    if k == 0 then Next(c, []) else
    var before := ReceiveExpiries(c, ws, k - 1, block);
    if !before.Next? then before else
    var m := ExpiryMessage(c.id, c.partner.address, ws[k - 1], c.partner.nonce + k);
    var step := DoReceiveWithdrawExpired(before.channel, m, block);
    if !step.Next? then step else Next(step.channel, before.events + step.events)
  }

  /**
   A receiver with the same pending withdraws and nonce, at most five blocks
   behind, accepts each expiry message and ends with the sender's list.
   */
  lemma {:induction false} ReceiverAcceptsExpiries(c: Channel, ws: seq<Withdraw>, k: nat, senderBlock: nat, block: nat)
    requires c.partner.withdraws == ws && k <= ExpiredPrefix(ws, senderBlock)
    requires block + BLOCK_CONFIRMATIONS >= senderBlock
    ensures ReceiveExpiries(c, ws, k, block).Next?
    ensures var d := ReceiveExpiries(c, ws, k, block).channel;
      && d.partner.withdraws == ws[k..]
      && d.partner.nonce == c.partner.nonce + k
      && d.partner.address == c.partner.address && d.id == c.id
    ensures ReceiveExpiries(c, ws, k, block).events == seq(k, _ => SendProcessed)
    decreases k
  {
    if k > 0 {
      ReceiverAcceptsExpiries(c, ws, k - 1, senderBlock, block);
      var before := ReceiveExpiries(c, ws, k - 1, block);
      assert ws[k - 1..][0] == ws[k - 1] && ws[k - 1..][1..] == ws[k..];
      assert Expired(ws[k - 1], senderBlock);
      assert before.events + [SendProcessed] == seq(k, _ => SendProcessed);
    }
  }

  /* ---- cooperative settlement ---- */

  /** A coop-settle record splits the two deposits into two amounts. */
  ghost predicate SplitsDeposits(s: CoopSettle, c: Channel) {
    && s.totalInitiator >= 0 && s.totalPartner >= 0
    && s.totalInitiator + s.totalPartner == c.our.contractBalance + c.partner.contractBalance
  }

  /** `s` is the record that was there, apart from its signatures and transaction. */
  ghost predicate SameSplit(before: Option<CoopSettle>, s: CoopSettle) {
    before.Some? && before.value.totalInitiator == s.totalInitiator && before.value.totalPartner == s.totalPartner
  }

  lemma CoopSettleRequestSplits(c: Channel, m: WithdrawMessage, coop: bool, block: nat)
    requires Funded(c) && DoReceiveWithdrawRequest(c, m, coop, block).Next?
    ensures var d := DoReceiveWithdrawRequest(c, m, coop, block).channel;
      && (d.our.coopSettle.Some? ==> SameSplit(c.our.coopSettle, d.our.coopSettle.value))
      && (d.partner.coopSettle.Some? ==>
            d.partner.coopSettle == c.partner.coopSettle || SplitsDeposits(d.partner.coopSettle.value, c))
  {
  }

  lemma {:induction false} ExpireLoopCoop(e: End, ws: seq<Withdraw>, block: nat)
    ensures ExpireLoop(e, ws, block).0.coopSettle in {e.coopSettle, None}
    decreases |ws|
  {
    if ws != [] && block >= SenderThreshold(ws[0].expiration) {
      ExpireLoopCoop(ExpireOne(e, ws[0]), ws[1..], block);
    }
  }

  ghost predicate RecordsSplit(c: Channel, before: Option<CoopSettle>, after: Option<CoopSettle>) {
    after.Some? ==> SameSplit(before, after.value) || SplitsDeposits(after.value, c)
  }

  ghost predicate CoopStep(c: Channel, d: Channel) {
    RecordsSplit(c, c.our.coopSettle, d.our.coopSettle) && RecordsSplit(c, c.partner.coopSettle, d.partner.coopSettle)
  }

  lemma LocksCoopFrame(c: Channel, a: Action)
    requires TouchesLocks(a) && Step(c, a).Next?
    ensures CoopStep(c, Step(c, a).channel)
  {
  }

  lemma RequestsCoopFrame(c: Channel, a: Action)
    requires IsRequest(a) && !MovesOurWithdraws(a) && Step(c, a).Next?
    ensures CoopStep(c, Step(c, a).channel)
  {
  }

  lemma ChainCoopFrame(c: Channel, a: Action)
    requires !TouchesLocks(a) && !IsRequest(a) && !a.ABlock? && Step(c, a).Next?
    ensures CoopStep(c, Step(c, a).channel)
  {
  }

  lemma BlockCoop(c: Channel, a: Action)
    requires a.ABlock? && Step(c, a).Next?
    ensures CoopStep(c, Step(c, a).channel)
  {
    ExpireLoopCoop(c.our, c.our.withdraws, a.block);
  }

  lemma UserCoop(c: Channel, a: Action)
    requires (a.AWithdraw? || a.ACoopSettle?) && Funded(c) && Step(c, a).Next?
    ensures CoopStep(c, Step(c, a).channel)
  {
  }

  /** Every coop-settle record that a step creates splits exactly the deposits known at that moment. */
  lemma StepCoopSettleSplits(c: Channel, a: Action)
    requires Funded(c) && Step(c, a).Next?
    ensures CoopStep(c, Step(c, a).channel)
  {
    if TouchesLocks(a) {
      LocksCoopFrame(c, a);
    } else if a.ABlock? {
      BlockCoop(c, a);
    } else if !IsRequest(a) {
      ChainCoopFrame(c, a);
    } else if a.AReceiveWithdrawRequest? {
      CoopSettleRequestSplits(c, a.m, a.coopSettle, a.block);
    } else if MovesOurWithdraws(a) {
      UserCoop(c, a);
    } else {
      RequestsCoopFrame(c, a);
    }
  }

  lemma RunCoopStep(r: Run, k: nat)
    requires IsRun(r) && k < |r.actions| && Funded(r.states[k])
    ensures CoopStep(r.states[k], r.states[k + 1])
  {
    assert StepAt(r, k);
    StepCoopSettleSplits(r.states[k], r.actions[k]);
  }

  /** The record of a coop-settle that this node, or the partner, initiated. */
  function RecordOf(c: Channel, ours: bool): Option<CoopSettle> {
    if ours then c.our.coopSettle else c.partner.coopSettle
  }

  /**
   The record in state `n` was created by step `i`: it splits the deposits known
   then, was not there before and has been there with this split ever since.
   */
  ghost predicate CreatedBy(r: Run, ours: bool, i: nat, n: nat)
    requires i < n < |r.states| && RecordOf(r.states[n], ours).Some?
  {
    var s := RecordOf(r.states[n], ours).value;
    && SplitsDeposits(s, r.states[i]) && !SameSplit(RecordOf(r.states[i], ours), s)
    && forall j :: i < j <= n ==> SameSplit(RecordOf(r.states[j], ours), s)
  }

  lemma {:induction false} CreatingStep(r: Run, ours: bool, n: nat) returns (i: nat)
    requires IsRun(r) && n < |r.states| && forall k :: 0 <= k < n ==> Funded(r.states[k])
    requires RecordOf(r.states[0], ours).None? && RecordOf(r.states[n], ours).Some?
    ensures i < n && CreatedBy(r, ours, i, n)
    decreases n
  {
    RunCoopStep(r, n - 1);
    var before, s := RecordOf(r.states[n - 1], ours), RecordOf(r.states[n], ours).value;
    assert RecordsSplit(r.states[n - 1], before, RecordOf(r.states[n - 1 + 1], ours));
    if SameSplit(before, s) {
      i := CreatingStep(r, ours, n - 1);
    } else {
      i := n - 1;
    }
  }

  /** In every run that keeps both balances non-negative, each record was created by one step as such a split. */
  lemma CoopSettlesSplitDeposits(r: Run, ours: bool, n: nat)
    requires IsRun(r) && n < |r.states| && forall i :: 0 <= i < n ==> Funded(r.states[i])
    requires RecordOf(r.states[0], ours).None? && RecordOf(r.states[n], ours).Some?
    ensures exists i :: 0 <= i < n && CreatedBy(r, ours, i, n)
  {
    var i := CreatingStep(r, ours, n);
  }
}
