/**
 What a node that follows the chain has processed, in every run with committed
 batches, batches that time out, crashes and restarts
 (`raiden_common/raiden_service.py`).
 */
module FollowerRuns {
  import opened EventFilters
  import opened EventQueries
  import opened EventBatches
  import opened EventRepeats
  import opened BlockchainEvents
  import opened ChainFollowing

  /* ---- when the node listens to secrets ---- */

  predicate HasChannel(s: NodeState) { exists n :: n in s.channels && s.channels[n] != {} }

  /** The step comes across a channel of the node, in a batch or when it restarts from its state. */
  ghost predicate TurnsOn(k: Setting, s: Follower, op: FollowOp) {
    match op
    case Commits(to, _) => OwnOpening(k, s.block, to)
    case CutShort(to, rounds) => SeesOpening(k, s.filter, s.block, to, rounds)
    case Restarts => HasChannel(s.state)
  }

  lemma NodeFilterIgnores(s: NodeState, secrets: Address)
    ensures FiltersFromNodeState(s, secrets).ignoreSecrets <==> !HasChannel(s)
  {
    var watched := map n | n in s.channels && s.channels[n] != {} :: s.channels[n];
    if HasChannel(s) {
      var n :| n in s.channels && s.channels[n] != {};
      assert n in watched;
    }
  }

  /** A step makes the node listen when it comes across a channel; only a restart can end it. */
  lemma StepListens(k: Setting, s: Follower, op: FollowOp, secrets: Address, gone: ChainEvent -> bool)
    requires WellFormed(k.chain) && FollowInv(k, s, secrets)
    ensures !FollowStep(k, s, op, secrets, gone).filter.ignoreSecrets
       <==> TurnsOn(k, s, op) || (!op.Restarts? && !s.filter.ignoreSecrets)
  {
    match op
    case Commits(to, _) => BatchIgnores(k, s.filter, s.block, to);
    case CutShort(to, rounds) => RoundsIgnore(k, s.filter, s.block, to, rounds);
    case Restarts => NodeFilterIgnores(s.state, secrets);
  }

  /** Secrets enter with a committed batch, exactly while the node listens. */
  lemma StepSecrets(k: Setting, s: Follower, op: FollowOp, secrets: Address, gone: ChainEvent -> bool, e: ChainEvent)
    requires WellFormed(k.chain) && FollowInv(k, s, secrets) && FollowAllowed(k, s, op) && e.SecretRevealed?
    ensures e in FollowStep(k, s, op, secrets, gone).processed <==>
      || e in s.processed
      || (&& op.Commits? && e in k.chain && s.block < e.block <= op.to
          && e.registry == secrets && !s.filter.ignoreSecrets)
  {
    if op.Commits? { BatchHolds(k, s.filter, s.block, op.to, op.events, e); }
  }

  predicate NoRestart(ops: seq<FollowOp>, from: nat, to: nat) {
    forall j :: from <= j < to && j < |ops| ==> !ops[j].Restarts?
  }

  /** In state `i` of the run some channel has been come across, and no restart has forgotten it since. */
  ghost predicate Listens(k: Setting, states: seq<Follower>, ops: seq<FollowOp>, i: nat)
    requires |states| == |ops| + 1
  {
    || (!k.initial.ignoreSecrets && NoRestart(ops, 0, i))
    || exists m :: 0 <= m < i && m < |ops| && TurnsOn(k, states[m], ops[m]) && NoRestart(ops, m + 1, i)
  }

  lemma ListensNext(k: Setting, states: seq<Follower>, ops: seq<FollowOp>, i: nat)
    requires |states| == |ops| + 1 && i < |ops|
    ensures Listens(k, states, ops, i + 1)
       <==> TurnsOn(k, states[i], ops[i]) || (!ops[i].Restarts? && Listens(k, states, ops, i))
  {
    if TurnsOn(k, states[i], ops[i]) { assert NoRestart(ops, i + 1, i + 1); }
    forall m: nat | m <= i ensures NoRestart(ops, m, i + 1) <==> NoRestart(ops, m, i) && !ops[i].Restarts? { }
  }

  /** The node ignores secrets in every state of a run in which it does not listen, and in no other. */
  lemma {:induction false} ListensIff(k: Setting, states: seq<Follower>, ops: seq<FollowOp>, secrets: Address,
                                      gone: ChainEvent -> bool, i: nat)
    requires WellFormed(k.chain) && RemovedAtTheEnd(k, gone) && IsFollowRun(k, states, ops, secrets, gone)
    requires i < |states|
    ensures !states[i].filter.ignoreSecrets <==> Listens(k, states, ops, i)
    decreases i
  {
    if i > 0 {
      var j: nat := i - 1;
      ListensIff(k, states, ops, secrets, gone, j);
      FollowRunKeeps(k, states, ops, secrets, gone, j);
      StepListens(k, states[j], ops[j], secrets, gone);
      ListensNext(k, states, ops, j);
      assert states[j + 1] == FollowStep(k, states[j], ops[j], secrets, gone);
    }
  }

  /* ---- what has been processed ---- */

  /** The batch that was committed for this block started while the node listened. */
  ghost predicate HeardIn(k: Setting, states: seq<Follower>, ops: seq<FollowOp>, n: nat, block: nat)
    requires |states| == |ops| + 1
  {
    exists i :: 0 <= i < n && i < |ops| && ops[i].Commits? && states[i].block < block <= ops[i].to
      && Listens(k, states, ops, i)
  }

  lemma HeardNext(k: Setting, states: seq<Follower>, ops: seq<FollowOp>, n: nat, block: nat)
    requires |states| == |ops| + 1 && n < |ops|
    ensures HeardIn(k, states, ops, n + 1, block) <==>
      || HeardIn(k, states, ops, n, block)
      || (ops[n].Commits? && states[n].block < block <= ops[n].to && Listens(k, states, ops, n))
  {
  }

  /** Exactly the secrets of blocks whose batch started while the node listened. */
  lemma {:induction false} SecretsProcessedIff(k: Setting, states: seq<Follower>, ops: seq<FollowOp>, secrets: Address,
                                               gone: ChainEvent -> bool, n: nat, e: ChainEvent)
    requires WellFormed(k.chain) && RemovedAtTheEnd(k, gone) && IsFollowRun(k, states, ops, secrets, gone)
    requires n < |states| && e.SecretRevealed?
    ensures e in states[n].processed <==>
      e in k.chain && e.registry == secrets && HeardIn(k, states, ops, n, e.block)
    decreases n
  {
    if n > 0 {
      var j: nat := n - 1;
      SecretsProcessedIff(k, states, ops, secrets, gone, j, e);
      FollowRunKeeps(k, states, ops, secrets, gone, j);
      StepSecrets(k, states[j], ops[j], secrets, gone, e);
      ListensIff(k, states, ops, secrets, gone, j);
      HeardNext(k, states, ops, j, e.block);
      assert states[j + 1] == FollowStep(k, states[j], ops[j], secrets, gone);
    }
  }

  /** A secret that one of the two nodes listens to and the other does not. */
  ghost predicate HeardByOne(k: Setting, states: seq<Follower>, ops: seq<FollowOp>, secrets: Address, n: nat,
                             cuts: seq<nat>, e: ChainEvent)
    requires |states| == |ops| + 1
  {
    && e.SecretRevealed? && e in k.chain && e.registry == secrets && k.start < e.block <= LastBlock(k.start, cuts)
    && (HeardIn(k, states, ops, n, e.block)
        <==> k.initial.ignoreSecrets && !HeardBefore(k, k.start, cuts, e.block))
  }

  /**
   However often the node crashes and resumes with the filters of its own state,
   and however its batches are cut or time out: it has processed the same events as
   a node that fetched the blocks in any batches without a crash, except for the
   secrets that one of them listened to and the other did not.
   */
  lemma CrashesDoNotMatterIff(k: Setting, states: seq<Follower>, ops: seq<FollowOp>, secrets: Address,
                              gone: ChainEvent -> bool, n: nat, cuts: seq<nat>, e: ChainEvent)
    requires WellFormed(k.chain) && RemovedAtTheEnd(k, gone) && IsFollowRun(k, states, ops, secrets, gone)
    requires n < |states| && CutInto(k, cuts, states[n].block)
    ensures (e in states[n].processed <==> FoundWith(k, cuts, e)) <==> !HeardByOne(k, states, ops, secrets, n, cuts, e)
  {
    FollowRunKeeps(k, states, ops, secrets, gone, n);
    InitialTracks(k);
    BatchesFindWanted(k, k.initial, k.start, cuts, e);
    if e.SecretRevealed? {
      SecretsProcessedIff(k, states, ops, secrets, gone, n, e);
      ProcessedInRange(k, states, ops, secrets, gone, n);
    }
  }

  /* ---- how often ---- */

  lemma {:induction false} ProcessedInRange(k: Setting, states: seq<Follower>, ops: seq<FollowOp>, secrets: Address,
                                            gone: ChainEvent -> bool, n: nat)
    requires IsFollowRun(k, states, ops, secrets, gone) && n < |states|
    ensures k.start <= states[n].block
    ensures forall e :: e in states[n].processed ==> k.start < e.block <= states[n].block
    decreases n
  {
    if n > 0 {
      var j: nat := n - 1;
      ProcessedInRange(k, states, ops, secrets, gone, j);
      assert states[j + 1] == FollowStep(k, states[j], ops[j], secrets, gone) && FollowAllowed(k, states[j], ops[j]);
      if ops[j].Commits? { BatchInRange(k, states[j], ops[j]); }
    }
  }

  lemma BatchInRange(k: Setting, s: Follower, op: FollowOp)
    requires op.Commits? && FollowAllowed(k, s, op)
    ensures forall e :: e in op.events ==> s.block < e.block <= op.to
  {
    FoundInChain(k.chain, s.filter, k.node, s.block, op.to, MAX_ROUNDS);
    forall e | e in op.events ensures s.block < e.block <= op.to { assert e in Elements(op.events); }
  }

  /** The batch of the step has an event twice. */
  ghost predicate StepRepeats(k: Setting, s: Follower, op: FollowOp) {
    op.Commits? && Repeats(k.chain, s.filter, k.node, s.block, op.to)
  }

  lemma StepOnceIff(k: Setting, s: Follower, op: FollowOp, secrets: Address, gone: ChainEvent -> bool)
    requires Plain(k.chain) && FollowAllowed(k, s, op) && forall e :: e in s.processed ==> e.block <= s.block
    ensures Once(FollowStep(k, s, op, secrets, gone).processed) <==> Once(s.processed) && !StepRepeats(k, s, op)
  {
    if op.Commits? {
      BatchInRange(k, s, op);
      OnceConcat(s.processed, op.events);
    }
  }

  ghost predicate NeverRepeats(k: Setting, states: seq<Follower>, ops: seq<FollowOp>, n: nat)
    requires n <= |ops| < |states|
  {
    forall i :: 0 <= i < n ==> !StepRepeats(k, states[i], ops[i])
  }

  lemma RunOnceNext(k: Setting, states: seq<Follower>, ops: seq<FollowOp>, secrets: Address,
                    gone: ChainEvent -> bool, n: nat)
    requires Plain(k.chain) && IsFollowRun(k, states, ops, secrets, gone) && n < |ops|
    ensures Once(states[n + 1].processed) <==> Once(states[n].processed) && !StepRepeats(k, states[n], ops[n])
  {
    ProcessedInRange(k, states, ops, secrets, gone, n);
    StepOnceIff(k, states[n], ops[n], secrets, gone);
    assert states[n + 1] == FollowStep(k, states[n], ops[n], secrets, gone);
  }

  /** No event has been processed twice exactly when no committed batch started with a filter ahead of its blocks. */
  lemma ProcessedOnceIff(k: Setting, states: seq<Follower>, ops: seq<FollowOp>, secrets: Address,
                         gone: ChainEvent -> bool, n: nat)
    requires Plain(k.chain) && IsFollowRun(k, states, ops, secrets, gone) && n < |states|
    ensures Once(states[n].processed) <==> NeverRepeats(k, states, ops, n)
  {
    for m := 0 to n
      invariant Once(states[m].processed) <==> NeverRepeats(k, states, ops, m)
    {
      RunOnceNext(k, states, ops, secrets, gone, m);
    }
  }

  /* ---- runs without timeouts ---- */

  ghost predicate NotAhead(k: Setting, s: Follower, secrets: Address) {
    && NothingAhead(k.chain, s.filter, s.block)
    && NothingAhead(k.chain, FiltersFromNodeState(s.state, secrets), s.block)
  }

  lemma StateAdds(k: Setting, s: Follower, to: nat, es: seq<ChainEvent>, secrets: Address, gone: ChainEvent -> bool)
    requires BatchOf(k, s.filter, s.block, to, es) && Resumable(k, s.state, secrets, s.block)
    ensures AddsUpTo(k.chain, FiltersFromNodeState(s.state, secrets),
                     FiltersFromNodeState(ProcessAll(s.state, es, gone), secrets), to)
  {
    NetworksStayRight(k, s.filter, s.state, secrets, s.block, to, es, gone);
    NetworksAfter(s.state, es, gone);
    WatchesKnown(s.state, secrets);
    WatchesKnown(ProcessAll(s.state, es, gone), secrets);
    forall e | e in es ensures e in k.chain && e.block <= to { BatchHolds(k, s.filter, s.block, to, es, e); }
    forall n, c | Knows(ProcessAll(s.state, es, gone), n, c) && !Knows(s.state, n, c)
      ensures exists o :: o in es && o.ChannelOpened? && o.network == n && o.channel == c
    {
      OnlyOpenedAreKnown(s.state, es, gone, n, c);
    }
  }

  lemma StepStaysBehind(k: Setting, s: Follower, op: FollowOp, secrets: Address, gone: ChainEvent -> bool)
    requires WellFormed(k.chain) && CreatedOnce(k.chain) && FollowInv(k, s, secrets) && FollowAllowed(k, s, op)
    requires NotAhead(k, s, secrets) && !op.CutShort?
    ensures NotAhead(k, FollowStep(k, s, op, secrets, gone), secrets)
  {
    if op.Commits? {
      var t := FollowStep(k, s, op, secrets, gone);
      GrownAdds(k.chain, s.filter, k.node, s.block, op.to, MAX_ROUNDS);
      StaysBehind(k.chain, s.filter, t.filter, s.block, op.to);
      StateAdds(k, s, op.to, op.events, secrets, gone);
      StaysBehind(k.chain, FiltersFromNodeState(s.state, secrets), FiltersFromNodeState(t.state, secrets), s.block,
                  op.to);
    }
  }

  lemma {:induction false} RunStaysBehind(k: Setting, states: seq<Follower>, ops: seq<FollowOp>, secrets: Address,
                                          gone: ChainEvent -> bool, n: nat)
    requires WellFormed(k.chain) && RemovedAtTheEnd(k, gone) && IsFollowRun(k, states, ops, secrets, gone)
    requires CreatedOnce(k.chain) && NothingAhead(k.chain, k.initial, k.start) && n < |states|
    requires forall i :: 0 <= i < n ==> !ops[i].CutShort?
    ensures NotAhead(k, states[n], secrets)
    decreases n
  {
    if n > 0 {
      var j: nat := n - 1;
      RunStaysBehind(k, states, ops, secrets, gone, j);
      FollowRunKeeps(k, states, ops, secrets, gone, j);
      StepStaysBehind(k, states[j], ops[j], secrets, gone);
      assert states[j + 1] == FollowStep(k, states[j], ops[j], secrets, gone);
    }
  }

  /** With any crashes, but no batch that times out, every event is processed once. */
  lemma ProcessedOnce(k: Setting, states: seq<Follower>, ops: seq<FollowOp>, secrets: Address,
                      gone: ChainEvent -> bool, n: nat)
    requires WellFormed(k.chain) && RemovedAtTheEnd(k, gone) && IsFollowRun(k, states, ops, secrets, gone)
    requires Plain(k.chain) && CreatedOnce(k.chain) && NothingAhead(k.chain, k.initial, k.start) && n < |states|
    requires forall i :: 0 <= i < n ==> !ops[i].CutShort?
    ensures Once(states[n].processed)
  {
    forall i | 0 <= i < n ensures !StepRepeats(k, states[i], ops[i]) {
      RunStaysBehind(k, states, ops, secrets, gone, i);
      if ops[i].Commits? {
        NothingAheadNothingTwice(k.chain, states[i].filter, k.node, states[i].block, ops[i].to);
      }
    }
    ProcessedOnceIff(k, states, ops, secrets, gone, n);
  }
}
