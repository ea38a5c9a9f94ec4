/**
 The coop-settle that this node initiates: what sets its two signatures, when its
 transaction is sent, and what the partner's coop-settle is answered with.
 */
module CoopSettlement {
  import opened Options
  import opened ChannelState
  import opened ChannelTransitions
  import opened ChannelRuns
  import opened ChannelWithdraws
  import opened ChannelMessages
  import opened ChannelLifecycle
  import opened ChannelDuties

  /** The partner asks for everything it has left, without locks, as our record says. */
  ghost predicate AnswersRequest(c: Channel, a: Action) {
    && c.our.coopSettle.Some? && a.AReceiveWithdrawRequest? && RequestInOrder(c, a.m)
    && a.m.total == MaxWithdraw(c.partner, c.our) && c.partner.book.pending == []
    && a.m.expiration == c.our.coopSettle.value.expiration && a.m.total == c.our.coopSettle.value.totalPartner
  }

  /** The partner confirms what we asked for. */
  ghost predicate TakesConfirmation(c: Channel, a: Action) {
    && c.our.coopSettle.Some? && c.partner.coopSettle.None?
    && a.AReceiveWithdrawConfirmation? && ConfirmationInOrder(c, a.m)
  }

  /** The record with both signatures; it is not too late to send it. */
  predicate Complete(c: Channel, s: CoopSettle, block: nat) {
    s.requestSigned && s.confirmationSigned && block <= s.expiration + c.revealTimeout
  }

  /** The record once the step has been signed, with a transaction that was started if it is complete. */
  function Signed(c: Channel, s: CoopSettle, block: nat): CoopSettle {
    if Complete(c, s, block) then s.(transaction := Some(TxStatus(Some(block), None, None))) else s
  }

  function SettleEvents(c: Channel, s: CoopSettle, block: nat): seq<Event> {
    if Complete(c, s, block) then [ContractCoopSettle(s.totalInitiator, s.totalPartner, s.expiration)] else []
  }

  /** The partner's request signs the record, is confirmed, and completes it if the confirmation is there. */
  lemma RequestSigns(c: Channel, a: Action)
    requires AnswersRequest(c, a)
    ensures var o := Step(c, a);
      var s := c.our.coopSettle.value.(requestSigned := true);
      && o.Next? && o.channel.our == c.our.(nonce := c.our.nonce + 1, coopSettle := Some(Signed(c, s, a.block)))
      && o.events == SettleEvents(c, s, a.block)
                     + [SendWithdrawConfirmation(a.m.total, c.our.nonce + 1, a.m.expiration)]
  {
    assert ValidWithdrawRequest(c, a.m);
  }

  /** A request in order that does not answer our coop-settle changes nothing but what the partner has asked for. */
  lemma WrongRequest(c: Channel, a: Action)
    requires c.our.coopSettle.Some? && a.AReceiveWithdrawRequest? && RequestInOrder(c, a.m) && !AnswersRequest(c, a)
    ensures
      || Step(c, a).Raised?
      || (Step(c, a).Next? && Step(c, a).events == [Invalid] && Step(c, a).channel.our == c.our)
    ensures Step(c, a).Raised? <==>
      && a.m.total == MaxWithdraw(c.partner, c.our) && c.partner.book.pending == []
      && a.m.expiration == c.our.coopSettle.value.expiration
  {
    assert ValidWithdrawRequest(c, a.m);
  }

  /** The partner's confirmation signs the record and completes it if the request is there. */
  lemma ConfirmationSigns(c: Channel, a: Action)
    requires TakesConfirmation(c, a)
    ensures var o := Step(c, a);
      var s := c.our.coopSettle.value.(confirmationSigned := true);
      && o.Next? && o.channel.our == c.our.(coopSettle := Some(Signed(c, s, a.block)))
      && o.events == [SendProcessed] + SettleEvents(c, s, a.block)
  {
    assert ValidWithdrawConfirmation(c, a.m);
  }

  lemma WrongConfirmation(c: Channel, a: Action)
    requires c.our.coopSettle.Some? && a.AReceiveWithdrawConfirmation? && !TakesConfirmation(c, a)
    ensures Step(c, a) == if ConfirmationInOrder(c, a.m) then Raised else Next(c, [Invalid])
  {
    assert ValidWithdrawConfirmation(c, a.m) <==> ConfirmationInOrder(c, a.m);
  }

  /** The partner starts a coop-settle: it is accepted exactly without locks on either side and for all that it has. */
  lemma PartnerCoopSettle(c: Channel, m: WithdrawMessage, block: nat)
    requires RequestInOrder(c, m) && c.our.coopSettle.None? && IsUnclosed(c)
    ensures var o := Step(c, AReceiveWithdrawRequest(m, true, block));
      var ours, n := MaxWithdraw(c.our, c.partner), c.our.nonce;
      if m.total == MaxWithdraw(c.partner, c.our) && c.partner.book.pending == [] && c.our.book.pending == [] then
        var request := SendWithdrawRequest(ours, n + 1, m.expiration, false);
        && o.Next? && o.events == [request, request, SendWithdrawConfirmation(m.total, n + 2, m.expiration)]
        && o.channel.our == c.our.(nonce := n + 2,
             withdraws := PutWithdraw(c.our.withdraws, Withdraw(ours, m.expiration, n + 1)))
        && o.channel.partner.coopSettle == Some(CoopSettle(m.total, ours, m.expiration, true, false, None))
      else o.Next? && o.events == [Invalid] && o.channel.our == c.our
  {
    assert ValidWithdrawRequest(c, m);
  }

  /* ---- over runs ---- */

  /** Between the two, the record is the same but for its transaction. */
  ghost predicate SameRecord(before: Option<CoopSettle>, s: CoopSettle) {
    before.Some? && before.value.(transaction := s.transaction) == s
  }

  /** What a step can do to our record. */
  ghost predicate RecordStep(c: Channel, a: Action, s: CoopSettle) {
    || SameRecord(c.our.coopSettle, s)
    || (!s.requestSigned && !s.confirmationSigned)
    || (AnswersRequest(c, a) && SameRecord(Some(c.our.coopSettle.value.(requestSigned := true)), s))
    || (TakesConfirmation(c, a) && SameRecord(Some(c.our.coopSettle.value.(confirmationSigned := true)), s))
  }

  lemma LocksKeepRecord(c: Channel, a: Action)
    requires TouchesLocks(a) && Step(c, a).Next?
    ensures Step(c, a).channel.our.coopSettle == c.our.coopSettle
  {
  }

  lemma ChainKeepsRecord(c: Channel, a: Action)
    requires !TouchesLocks(a) && !IsRequest(a) && Step(c, a).Next?
    ensures Step(c, a).channel.our.coopSettle in {c.our.coopSettle, None}
  {
    if a.ABlock? { ExpireLoopCoop(c.our, c.our.withdraws, a.block); }
  }

  lemma OtherRequestsKeepRecord(c: Channel, a: Action)
    requires (a.AClose? || a.AWithdraw? || a.ASetRevealTimeout? || a.AReceiveWithdrawExpired?) && Step(c, a).Next?
    ensures Step(c, a).channel.our.coopSettle == c.our.coopSettle
  {
  }

  lemma NoRecordByRequest(c: Channel, a: Action)
    requires a.AReceiveWithdrawRequest? && c.our.coopSettle.None? && Step(c, a).Next?
    ensures Step(c, a).channel.our.coopSettle.None?
  {
  }

  lemma MessageRecordStep(c: Channel, a: Action)
    requires (a.AReceiveWithdrawRequest? || a.AReceiveWithdrawConfirmation?) && Step(c, a).Next?
    requires Step(c, a).channel.our.coopSettle.Some?
    ensures RecordStep(c, a, Step(c, a).channel.our.coopSettle.value)
  {
    if a.AReceiveWithdrawRequest? {
      if c.our.coopSettle.None? {
        NoRecordByRequest(c, a);
      } else if AnswersRequest(c, a) {
        RequestSigns(c, a);
      } else if RequestInOrder(c, a.m) {
        WrongRequest(c, a);
      } else {
        RequestStoredIff(c, a.m, a.coopSettle, a.block);
      }
    } else if c.our.coopSettle.None? {
      ConfirmationTaken(c, a.m, a.block);
    } else if TakesConfirmation(c, a) {
      ConfirmationSigns(c, a);
    } else {
      WrongConfirmation(c, a);
    }
  }

  lemma OurRecordStep(c: Channel, a: Action)
    requires Step(c, a).Next? && Step(c, a).channel.our.coopSettle.Some?
    ensures RecordStep(c, a, Step(c, a).channel.our.coopSettle.value)
  {
    if TouchesLocks(a) {
      LocksKeepRecord(c, a);
    } else if !IsRequest(a) {
      ChainKeepsRecord(c, a);
    } else if a.ACoopSettle? {
      CoopSettleAskedIff(c, a.block);
    } else if a.AReceiveWithdrawRequest? || a.AReceiveWithdrawConfirmation? {
      MessageRecordStep(c, a);
    } else {
      OtherRequestsKeepRecord(c, a);
    }
  }

  /** A request of the partner for its part was taken before state `n`. */
  ghost predicate RequestReceived(r: Run, n: nat, s: CoopSettle)
    requires IsRun(r) && n < |r.states|
  {
    exists k :: 0 <= k < n && AnswersRequest(r.states[k], r.actions[k])
      && r.actions[k].m.total == s.totalPartner && r.actions[k].m.expiration == s.expiration
  }

  /** A confirmation was taken while the record had these totals. */
  ghost predicate ConfirmationReceived(r: Run, n: nat, s: CoopSettle)
    requires IsRun(r) && n < |r.states|
  {
    exists k :: 0 <= k < n && TakesConfirmation(r.states[k], r.actions[k])
      && SameSplit(r.states[k].our.coopSettle, s) && r.states[k].our.coopSettle.value.expiration == s.expiration
  }

  /** The signatures of our record stand for messages that were received. */
  lemma {:induction false} SignaturesWereReceived(r: Run, n: nat)
    requires IsRun(r) && n < |r.states| && r.states[0].our.coopSettle.None? && r.states[n].our.coopSettle.Some?
    ensures var s := r.states[n].our.coopSettle.value;
      (s.requestSigned ==> RequestReceived(r, n, s)) && (s.confirmationSigned ==> ConfirmationReceived(r, n, s))
    decreases n
  {
    var c, a, s := r.states[n - 1], r.actions[n - 1], r.states[n].our.coopSettle.value;
    assert StepAt(r, n - 1);
    OurRecordStep(c, a);
    if c.our.coopSettle.Some? { SignaturesWereReceived(r, n - 1); }
  }

  lemma LocksSettleNothing(c: Channel, a: Action, v: Event)
    requires TouchesLocks(a) && Step(c, a).Next? && v in Step(c, a).events
    ensures !v.ContractCoopSettle?
  {
  }

  lemma ChainSettlesNothing(c: Channel, a: Action, v: Event)
    requires !TouchesLocks(a) && !IsRequest(a) && Step(c, a).Next? && v in Step(c, a).events
    ensures !v.ContractCoopSettle?
  {
    if a.ABlock? && GetStatus(c) == Opened { OnlyExpiries(c.our, c.our.withdraws, a.block); }
  }

  lemma RequestSettlesNothing(c: Channel, a: Action, v: Event)
    requires IsRequest(a) && !AnswersRequest(c, a) && !TakesConfirmation(c, a)
    requires Step(c, a).Next? && v in Step(c, a).events
    ensures !v.ContractCoopSettle?
  {
    if a.AReceiveWithdrawRequest? && c.our.coopSettle.Some? {
      if RequestInOrder(c, a.m) { WrongRequest(c, a); } else { RequestStoredIff(c, a.m, a.coopSettle, a.block); }
    } else if a.AReceiveWithdrawConfirmation? && c.our.coopSettle.Some? {
      WrongConfirmation(c, a);
    }
  }

  /** The transaction is sent by the step that completes the record, with its totals. */
  lemma SettlementStep(c: Channel, a: Action, v: Event)
    requires Step(c, a).Next? && v in Step(c, a).events && v.ContractCoopSettle?
    ensures var s := Step(c, a).channel.our.coopSettle;
      && s.Some? && s.value.requestSigned && s.value.confirmationSigned
      && v == ContractCoopSettle(s.value.totalInitiator, s.value.totalPartner, s.value.expiration)
  {
    if TouchesLocks(a) {
      LocksSettleNothing(c, a, v);
    } else if !IsRequest(a) {
      ChainSettlesNothing(c, a, v);
    } else if AnswersRequest(c, a) {
      RequestSigns(c, a);
    } else if TakesConfirmation(c, a) {
      ConfirmationSigns(c, a);
    } else {
      RequestSettlesNothing(c, a, v);
    }
  }

  /**
   A coop-settle transaction is sent only with both signatures: the partner's
   request for the second total and its confirmation of ours were taken before,
   while our record had these totals.
   */
  lemma SettlementIsSigned(r: Run, i: nat, v: Event)
    requires IsRun(r) && i < |r.actions| && r.states[0].our.coopSettle.None?
    requires v in r.events[i] && v.ContractCoopSettle?
    ensures r.states[i + 1].our.coopSettle.Some?
    ensures var s := r.states[i + 1].our.coopSettle.value;
      && v == ContractCoopSettle(s.totalInitiator, s.totalPartner, s.expiration)
      && RequestReceived(r, i + 1, s) && ConfirmationReceived(r, i + 1, s)
  {
    assert StepAt(r, i);
    SettlementStep(r.states[i], r.actions[i], v);
    SignaturesWereReceived(r, i + 1);
  }
}
