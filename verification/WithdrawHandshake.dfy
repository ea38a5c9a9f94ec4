/**
 The exchanges of withdraw messages between two nodes that agree on the channel:
 a single withdraw, and a cooperative settlement.
 */
module WithdrawHandshake {
  import opened Options
  import opened LockCodec
  import opened ChannelState
  import opened ChannelTransitions
  import opened ChannelSolvency

  /* ---- two nodes that agree ---- */

  ghost predicate MirrorEnd(e: End, f: End) {
    && e.address == f.address && e.nonce == f.nonce
    && e.contractBalance == f.contractBalance && e.onchainWithdraw == f.onchainWithdraw && e.withdraws == f.withdraws
    && Transferred(e.book) == Transferred(f.book) && e.book.pending == f.book.pending
  }

  /** What one node has as its own end is what the other has as the end of its partner. */
  ghost predicate Mirror(a: Channel, b: Channel) {
    a.id == b.id && MirrorEnd(a.our, b.partner) && MirrorEnd(a.partner, b.our)
  }

  /** Opened channels that agree, with balances that are not negative and no cooperative settlement under way. */
  ghost predicate Agreed(a: Channel, b: Channel) {
    && Mirror(a, b) && GetStatus(a) == Opened && GetStatus(b) == Opened
    && Funded(a)
    && a.our.coopSettle.None? && a.partner.coopSettle.None? && b.our.coopSettle.None? && b.partner.coopSettle.None?
  }

  /* ---- messages ---- */

  /** A withdraw request as its sender signs it. */
  function RequestMessage(id: CanonicalId, sender: Address, total: int, nonce: nat, expiration: int): WithdrawMessage {
    WithdrawMessage(id, total, nonce, expiration, sender, sender, Some(sender))
  }

  /** The confirmation of a withdraw of `participant`. */
  function ConfirmationMessage(id: CanonicalId, sender: Address, participant: Address, total: int, nonce: nat,
                               expiration: int): WithdrawMessage
  {
    WithdrawMessage(id, total, nonce, expiration, participant, sender, Some(sender))
  }

  /* ---- pending withdraws ---- */

  lemma {:induction false} FindPut(ws: seq<Withdraw>, w: Withdraw)
    ensures FindWithdraw(PutWithdraw(ws, w), w.total) == Some(w)
    decreases |ws|
  {
    if ws != [] && ws[0].total != w.total {
      FindPut(ws[1..], w);
      assert PutWithdraw(ws, w)[1..] == PutWithdraw(ws[1..], w);
    }
  }

  lemma MirroredBalance(a: Channel, b: Channel)
    requires Mirror(a, b)
    ensures MaxWithdraw(b.partner, b.our) == MaxWithdraw(a.our, a.partner)
    ensures MaxWithdraw(b.our, b.partner) == MaxWithdraw(a.partner, a.our)
    ensures TotalWithdraw(b.partner) == TotalWithdraw(a.our) && TotalWithdraw(b.our) == TotalWithdraw(a.partner)
  {
  }

  /** The end after it asked for a total withdraw. */
  function Requested(e: End, total: int, expiration: int): End {
    e.(nonce := e.nonce + 1, withdraws := PutWithdraw(e.withdraws, Withdraw(total, expiration, e.nonce + 1)))
  }

  lemma RequestedTotal(e: End, total: int, expiration: int)
    requires total >= TotalWithdraw(e)
    ensures TotalWithdraw(Requested(e, total, expiration)) == total
    ensures FindWithdraw(Requested(e, total, expiration).withdraws, total)
      == Some(Withdraw(total, expiration, e.nonce + 1))
  {
    var w := Withdraw(total, expiration, e.nonce + 1);
    RequestedFunds(e, e, w, Requested(e, total, expiration));
    FindPut(e.withdraws, w);
  }

  /* ---- a single withdraw ---- */

  lemma WithdrawSent(a: Channel, total: int, block: nat)
    requires GetStatus(a) == Opened && ValidTotalWithdraw(a, total, false)
    ensures var expiration := InitialExpiration(block, a.revealTimeout);
      DoWithdraw(a, total, block) ==
        Next(a.(our := Requested(a.our, total, expiration)),
             [SendWithdrawRequest(total, a.our.nonce + 1, expiration, false)])
  {
  }

  /** The partner takes a valid request that is not part of a settlement and confirms it. */
  lemma RequestConfirmed(a: Channel, b: Channel, total: int, expiration: int, block: nat)
    requires Agreed(a, b) && ValidTotalWithdraw(a, total, true)
    ensures var m := RequestMessage(a.id, a.our.address, total, a.our.nonce + 1, expiration);
      DoReceiveWithdrawRequest(b, m, false, block) ==
        Next(b.(partner := Requested(b.partner, total, expiration), our := WithNonce(b.our, b.our.nonce + 1)),
             [SendWithdrawConfirmation(total, b.our.nonce + 1, expiration)])
  {
    MirroredBalance(a, b);
    var m := RequestMessage(a.id, a.our.address, total, a.our.nonce + 1, expiration);
    assert ValidWithdrawRequest(b, m);
    assert StoreRequest(b, m).partner == Requested(b.partner, total, expiration);
  }

  /** The node that asked takes the confirmation and, with time left, withdraws on-chain. */
  lemma ConfirmationTaken(a: Channel, b: Channel, total: int, expiration: int, block: nat)
    requires Agreed(a, b) && ValidTotalWithdraw(a, total, true)
    ensures var asked := a.(our := Requested(a.our, total, expiration));
      var m := ConfirmationMessage(b.id, b.our.address, a.our.address, total, b.our.nonce + 1, expiration);
      DoReceiveWithdrawConfirmation(asked, m, block) ==
        Next(asked.(partner := WithNonce(a.partner, b.our.nonce + 1)),
             if expiration >= block - a.revealTimeout then [SendProcessed, ContractWithdraw(total, expiration)]
             else [SendProcessed])
  {
    var asked := a.(our := Requested(a.our, total, expiration));
    var m := ConfirmationMessage(b.id, b.our.address, a.our.address, total, b.our.nonce + 1, expiration);
    RequestedTotal(a.our, total, expiration);
    assert ValidWithdrawConfirmation(asked, m);
  }

  /* ---- more withdraws in between ---- */

  /** A total withdraw that the user asks for in some block. */
  datatype Ask = Ask(total: int, block: nat)

  /** The channel after the user asked for further withdraws. */
  function AfterAsks(c: Channel, asks: seq<Ask>): Channel
    decreases |asks|
  {
    if asks == [] then c else AfterAsks(DoWithdraw(c, asks[0].total, asks[0].block).channel, asks[1..])
  }

  lemma AskRaisesTotal(c: Channel, ask: Ask)
    ensures var next := DoWithdraw(c, ask.total, ask.block).channel;
      if ValidTotalWithdraw(c, ask.total, false) then TotalWithdraw(next.our) > TotalWithdraw(c.our) else next == c
  {
    if ValidTotalWithdraw(c, ask.total, false) {
      RequestedTotal(c.our, ask.total, InitialExpiration(ask.block, c.revealTimeout));
    }
  }

  /** A valid request raises the total, for good. */
  lemma {:induction false} AsksRaiseTotal(c: Channel, asks: seq<Ask>)
    ensures TotalWithdraw(AfterAsks(c, asks).our) >= TotalWithdraw(c.our)
    ensures if forall i :: 0 <= i < |asks| ==> !ValidTotalWithdraw(c, asks[i].total, false) then AfterAsks(c, asks) == c
      else TotalWithdraw(AfterAsks(c, asks).our) > TotalWithdraw(c.our)
    decreases |asks|
  {
    if asks != [] {
      var next := DoWithdraw(c, asks[0].total, asks[0].block).channel;
      AsksRaiseTotal(next, asks[1..]);
      AskRaisesTotal(c, asks[0]);
      if next == c {
        assert forall i :: 1 <= i < |asks| ==> asks[i] == asks[1..][i - 1];
      }
    }
  }

  /** The confirmation is taken exactly when no further request was valid before it arrived. */
  lemma ConfirmationTakenIff(a: Channel, b: Channel, total: int, expiration: int, asks: seq<Ask>)
    requires Agreed(a, b) && ValidTotalWithdraw(a, total, true)
    ensures var asked := a.(our := Requested(a.our, total, expiration));
      var m := ConfirmationMessage(b.id, b.our.address, a.our.address, total, b.our.nonce + 1, expiration);
      ValidWithdrawConfirmation(AfterAsks(asked, asks), m) <==>
      forall i :: 0 <= i < |asks| ==> !ValidTotalWithdraw(asked, asks[i].total, false)
  {
    var asked := a.(our := Requested(a.our, total, expiration));
    RequestedTotal(a.our, total, expiration);
    AsksRaiseTotal(asked, asks);
  }

  /**
   A withdraw that the asking node finds valid is taken by the partner, its
   confirmation is taken in turn, and afterwards the two nodes agree again.
   */
  lemma WithdrawCompletes(a: Channel, b: Channel, total: int, block: nat, blockB: nat, blockA: nat)
    requires Agreed(a, b) && ValidTotalWithdraw(a, total, false)
    ensures var sent := DoWithdraw(a, total, block);
      && sent.Next? && |sent.events| == 1 && sent.events[0].SendWithdrawRequest?
      && var request := sent.events[0];
      var taken := DoReceiveWithdrawRequest(
        b, RequestMessage(a.id, a.our.address, request.total, request.nonce, request.expiration), false, blockB);
      && taken.Next? && |taken.events| == 1 && taken.events[0].SendWithdrawConfirmation?
      && var answer := taken.events[0];
      var done := DoReceiveWithdrawConfirmation(
        sent.channel,
        ConfirmationMessage(b.id, b.our.address, a.our.address, answer.total, answer.nonce, answer.expiration),
        blockA);
      && done.Next? && SendProcessed in done.events && Mirror(done.channel, taken.channel)
      && (ContractWithdraw(total, request.expiration) in done.events <==>
           request.expiration >= blockA - a.revealTimeout)
      && TotalWithdraw(done.channel.our) == total
  {
    var expiration := InitialExpiration(block, a.revealTimeout);
    WithdrawSent(a, total, block);
    RequestConfirmed(a, b, total, expiration, blockB);
    ConfirmationTaken(a, b, total, expiration, blockA);
    RequestedTotal(a.our, total, expiration);
  }

  /* ---- a cooperative settlement ---- */

  /** The initiator may settle: no locks or withdraws are pending and the deposits are a 256-bit amount. */
  ghost predicate CanSettle(a: Channel, b: Channel) {
    && Agreed(a, b) && ValidCoopSettle(a, MaxWithdraw(a.our, a.partner))
    && a.our.contractBalance + a.partner.contractBalance <= UINT256_MAX
  }

  function Record(a: Channel, expiration: int, requestSigned: bool, confirmationSigned: bool): CoopSettle {
    var ours, theirs := MaxWithdraw(a.our, a.partner), MaxWithdraw(a.partner, a.our);
    CoopSettle(ours, theirs, expiration, requestSigned, confirmationSigned, None)
  }

  /** The initiator after its request. */
  function Started(a: Channel, expiration: int): Channel {
    var our := WithCoopSettle(a.our, Record(a, expiration, false, false));
    a.(our := Requested(our, MaxWithdraw(a.our, a.partner), expiration))
  }

  lemma SettlementStarted(a: Channel, b: Channel, block: nat)
    requires CanSettle(a, b)
    ensures var expiration := InitialExpiration(block, a.revealTimeout);
      DoCoopSettle(a, block) == Next(
        Started(a, expiration), [SendWithdrawRequest(MaxWithdraw(a.our, a.partner), a.our.nonce + 1, expiration, true)])
  {
  }

  /** The partner after it accepted: its own request and the confirmation have used two nonces. */
  function Joined(a: Channel, b: Channel, expiration: int): Channel {
    var ours := Requested(b.our, MaxWithdraw(a.partner, a.our), expiration);
    b.(
      partner := WithCoopSettle(
        Requested(b.partner, MaxWithdraw(a.our, a.partner), expiration), Record(a, expiration, true, false)),
      our := WithNonce(ours, b.our.nonce + 2))
  }

  lemma SettlementJoined(a: Channel, b: Channel, expiration: int, block: nat)
    requires CanSettle(a, b)
    ensures var m := RequestMessage(a.id, a.our.address, MaxWithdraw(a.our, a.partner), a.our.nonce + 1, expiration);
      var request := SendWithdrawRequest(MaxWithdraw(a.partner, a.our), b.our.nonce + 1, expiration, false);
      DoReceiveWithdrawRequest(b, m, true, block) == Next(
        Joined(a, b, expiration),
        [request, request, SendWithdrawConfirmation(MaxWithdraw(a.our, a.partner), b.our.nonce + 2, expiration)])
  {
    MirroredBalance(a, b);
    var m := RequestMessage(a.id, a.our.address, MaxWithdraw(a.our, a.partner), a.our.nonce + 1, expiration);
    assert ValidWithdrawRequest(b, m);
    assert StoreRequest(b, m).partner == Requested(b.partner, m.total, expiration);
  }

  /** The initiator after it took the request of the partner. */
  function Answered(a: Channel, expiration: int): Channel {
    var our := WithCoopSettle(Started(a, expiration).our, Record(a, expiration, true, false));
    a.(our := WithNonce(our, a.our.nonce + 2),
       partner := Requested(a.partner, MaxWithdraw(a.partner, a.our), expiration))
  }

  lemma StartedTotals(a: Channel, b: Channel, expiration: int)
    requires CanSettle(a, b)
    ensures TotalWithdraw(Started(a, expiration).our) == MaxWithdraw(a.our, a.partner)
    ensures FindWithdraw(Started(a, expiration).our.withdraws, MaxWithdraw(a.our, a.partner))
      == Some(Withdraw(MaxWithdraw(a.our, a.partner), expiration, a.our.nonce + 1))
  {
    RequestedTotal(a.our, MaxWithdraw(a.our, a.partner), expiration);
  }

  lemma PartnerRequestAnswered(a: Channel, b: Channel, expiration: int, block: nat)
    requires CanSettle(a, b)
    ensures var m := RequestMessage(b.id, b.our.address, MaxWithdraw(a.partner, a.our), b.our.nonce + 1, expiration);
      && DoReceiveWithdrawRequest(Started(a, expiration), m, false, block) == Next(
           Answered(a, expiration),
           [SendWithdrawConfirmation(MaxWithdraw(a.partner, a.our), a.our.nonce + 2, expiration)])
      && DoReceiveWithdrawRequest(Answered(a, expiration), m, false, block) == Next(Answered(a, expiration), [Invalid])
  {
    StartedTotals(a, b, expiration);
    RequestedTotal(a.partner, MaxWithdraw(a.partner, a.our), expiration);
    var m := RequestMessage(b.id, b.our.address, MaxWithdraw(a.partner, a.our), b.our.nonce + 1, expiration);
    var c := Started(a, expiration);
    assert ValidWithdrawRequest(c, m);
    assert StoreRequest(c, m).partner == Requested(a.partner, m.total, expiration);
  }

  /** The initiator after the confirmation of the partner. */
  function Finished(a: Channel, b: Channel, expiration: int, block: nat): Channel {
    var s := Record(a, expiration, true, true);
    var c := Answered(a, expiration);
    c.(
      our := WithCoopSettle(c.our,
        if expiration >= block - a.revealTimeout then s.(transaction := Some(TxStatus(Some(block), None, None)))
        else s),
      partner := WithNonce(c.partner, b.our.nonce + 2))
  }

  lemma SettlementFinished(a: Channel, b: Channel, expiration: int, block: nat)
    requires CanSettle(a, b)
    ensures var ours, theirs := MaxWithdraw(a.our, a.partner), MaxWithdraw(a.partner, a.our);
      var m := ConfirmationMessage(b.id, b.our.address, a.our.address, ours, b.our.nonce + 2, expiration);
      DoReceiveWithdrawConfirmation(Answered(a, expiration), m, block) == Next(
        Finished(a, b, expiration, block),
        if expiration >= block - a.revealTimeout then [SendProcessed, ContractCoopSettle(ours, theirs, expiration)]
        else [SendProcessed])
  {
    StartedTotals(a, b, expiration);
    RequestedTotal(a.partner, MaxWithdraw(a.partner, a.our), expiration);
    var m := ConfirmationMessage(
      b.id, b.our.address, a.our.address, MaxWithdraw(a.our, a.partner), b.our.nonce + 2, expiration);
    assert ValidWithdrawConfirmation(Answered(a, expiration), m);
  }

  lemma PartnerConfirmed(a: Channel, b: Channel, expiration: int, block: nat)
    requires CanSettle(a, b)
    ensures var m := ConfirmationMessage(
        a.id, a.our.address, b.our.address, MaxWithdraw(a.partner, a.our), a.our.nonce + 2, expiration);
      var c := Joined(a, b, expiration);
      DoReceiveWithdrawConfirmation(c, m, block)
      == Next(c.(partner := WithNonce(c.partner, a.our.nonce + 2)), [SendProcessed])
  {
    MirroredBalance(a, b);
    RequestedTotal(b.our, MaxWithdraw(a.partner, a.our), expiration);
    RequestedTotal(b.partner, MaxWithdraw(a.our, a.partner), expiration);
    var m := ConfirmationMessage(
      a.id, a.our.address, b.our.address, MaxWithdraw(a.partner, a.our), a.our.nonce + 2, expiration);
    assert ValidWithdrawConfirmation(Joined(a, b, expiration), m);
  }

  /**
   A cooperative settlement that the initiator finds valid runs to its end: the
   partner answers with its request (twice) and a confirmation; the initiator
   takes the first request, rejects the second, takes the confirmation and, with
   time left, sends the settlement, which pays out exactly the two deposits;
   the partner takes the confirmation of its own request; and the nodes agree.
   */
  lemma SettlementCompletes(a: Channel, b: Channel, start: nat, blockB: nat, blockA: nat)
    requires CanSettle(a, b)
    ensures var expiration := InitialExpiration(start, a.revealTimeout);
      var ours, theirs := MaxWithdraw(a.our, a.partner), MaxWithdraw(a.partner, a.our);
      var c1 := DoCoopSettle(a, start);
      var d1 := DoReceiveWithdrawRequest(
                  b, RequestMessage(a.id, a.our.address, ours, a.our.nonce + 1, expiration), true, blockB);
      && c1.Next? && c1.events == [SendWithdrawRequest(ours, a.our.nonce + 1, expiration, true)]
      && d1.Next? && |d1.events| == 3 && d1.events[0] == d1.events[1]
      && var again := RequestMessage(b.id, b.our.address, theirs, b.our.nonce + 1, expiration);
      var c2 := DoReceiveWithdrawRequest(c1.channel, again, false, blockA);
      && c2.Next? && c2.events == [SendWithdrawConfirmation(theirs, a.our.nonce + 2, expiration)]
      && DoReceiveWithdrawRequest(c2.channel, again, false, blockA) == Next(c2.channel, [Invalid])
      && var c3 := DoReceiveWithdrawConfirmation(
           c2.channel,
           ConfirmationMessage(b.id, b.our.address, a.our.address, ours, b.our.nonce + 2, expiration), blockA);
      var d2 := DoReceiveWithdrawConfirmation(
        d1.channel,
        ConfirmationMessage(a.id, a.our.address, b.our.address, theirs, a.our.nonce + 2, expiration), blockB);
      && c3.Next? && d2.Next? && d2.events == [SendProcessed] && Mirror(c3.channel, d2.channel)
      && (ContractCoopSettle(ours, theirs, expiration) in c3.events <==> expiration >= blockA - a.revealTimeout)
      && ours + theirs == a.our.contractBalance + a.partner.contractBalance
  {
    var expiration := InitialExpiration(start, a.revealTimeout);
    SettlementStarted(a, b, start);
    SettlementJoined(a, b, expiration, blockB);
    PartnerRequestAnswered(a, b, expiration, blockA);
    SettlementFinished(a, b, expiration, blockA);
    PartnerConfirmed(a, b, expiration, blockB);
  }
}
