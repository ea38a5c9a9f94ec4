/**
 The loop that follows the chain and commits what it finds, and how a node
 resumes after a crash (`raiden_common/raiden_service.py`).
 */
module ChainFollowing {
  import opened Options
  import opened Integers
  import opened EventFilters
  import opened EventQueries
  import opened EventBatches
  import opened BlockchainEvents
  import BF = BatchFetching

  /* ---- what the node knows of the contracts ---- */

  /** The token network registries and, for each token network, the identifiers of its channels. */
  datatype NodeState = NodeState(registries: set<Address>, channels: map<Address, set<nat>>)

  predicate Knows(s: NodeState, n: Address, c: nat) { n in s.channels && c in s.channels[n] }

  /** `smart_contract_filters_from_node_state`. */
  function FiltersFromNodeState(s: NodeState, secrets: Address): Filter {
    var watched := map n | n in s.channels && s.channels[n] != {} :: s.channels[n];
    Filter(s.registries, s.channels.Keys, watched, Some(secrets), watched == map[])
  }

  /** The event removes the channel from the state; `gone` tells which settlements and unlocks leave nothing to do. */
  predicate Removes(e: ChainEvent, n: Address, c: nat, gone: ChainEvent -> bool) {
    && e.ChannelChanged? && (e.kind == Settled || e.kind == Unlocked) && gone(e)
    && e.network == n && e.channel == c
  }

  /** What the event does to the state; an opening in an unknown network is ignored. */
  function Process(s: NodeState, e: ChainEvent, gone: ChainEvent -> bool): NodeState {
    match e
    case NetworkCreated(_, _, r, n) =>
      if n in s.channels then s else NodeState(s.registries + {r}, s.channels[n := {}])
    case SecretRevealed(_, _, _) => s
    case ChannelOpened(_, _, n, c, _, _) =>
      if n !in s.channels then s else s.(channels := s.channels[n := s.channels[n] + {c}])
    case ChannelChanged(_, _, n, c, kind) =>
      if n in s.channels && (kind.Settled? || kind.Unlocked?) && gone(e) then
        s.(channels := s.channels[n := s.channels[n] - {c}])
      else s
  }

  function ProcessAll(s: NodeState, es: seq<ChainEvent>, gone: ChainEvent -> bool): NodeState {
    if es == [] then s else Process(ProcessAll(s, es[..|es| - 1], gone), es[|es| - 1], gone)
  }

  /* ---- the state after a batch ---- */

  lemma {:induction false} NetworksAfter(s: NodeState, es: seq<ChainEvent>, gone: ChainEvent -> bool)
    requires forall e :: e in es && e.NetworkCreated? ==> e.registry in s.registries
    ensures ProcessAll(s, es, gone).registries == s.registries
    ensures forall n :: n in s.channels ==> n in ProcessAll(s, es, gone).channels
    ensures forall e :: e in es && e.NetworkCreated? ==> e.network in ProcessAll(s, es, gone).channels
    ensures forall n :: n in ProcessAll(s, es, gone).channels ==>
      n in s.channels || exists e :: e in es && e.NetworkCreated? && e.network == n
    decreases |es|
  {
    if es != [] { NetworksAfter(s, es[..|es| - 1], gone); }
  }

  lemma {:induction false} OnlyOpenedAreKnown(s: NodeState, es: seq<ChainEvent>, gone: ChainEvent -> bool, n: Address,
                                              c: nat)
    requires Knows(ProcessAll(s, es, gone), n, c)
    ensures Knows(s, n, c) || exists e :: e in es && e.ChannelOpened? && e.network == n && e.channel == c
    decreases |es|
  {
    if es != [] && Knows(ProcessAll(s, es[..|es| - 1], gone), n, c) {
      OnlyOpenedAreKnown(s, es[..|es| - 1], gone, n, c);
    }
  }

  /** Event `i` creates a network that is not known by then. */
  ghost predicate CreatesAt(s: NodeState, es: seq<ChainEvent>, gone: ChainEvent -> bool, i: nat, r: Address)
    requires i < |es|
  {
    es[i].NetworkCreated? && es[i].registry == r && es[i].network !in ProcessAll(s, es[..i], gone).channels
  }

  /** The registries of the state are those it had and those that created a network it did not know. */
  lemma {:induction false} RegistryKnownIff(s: NodeState, es: seq<ChainEvent>, gone: ChainEvent -> bool, r: Address)
    ensures r in ProcessAll(s, es, gone).registries <==>
      r in s.registries || exists i :: 0 <= i < |es| && CreatesAt(s, es, gone, i, r)
    decreases |es|
  {
    if es != [] {
      var front := es[..|es| - 1];
      RegistryKnownIff(s, front, gone, r);
      assert forall i :: 0 <= i < |front| ==> es[..i] == front[..i] && es[i] == front[i];
      assert forall i :: 0 <= i < |front| ==> (CreatesAt(s, es, gone, i, r) <==> CreatesAt(s, front, gone, i, r));
      assert CreatesAt(s, es, gone, |front|, r) <==>
        es[|front|].NetworkCreated? && es[|front|].registry == r
        && es[|front|].network !in ProcessAll(s, front, gone).channels;
    }
  }

  /** A channel that is known after the first `i` events stays known unless one of the events removes it. */
  lemma {:induction false} KnownUnlessRemoved(s: NodeState, es: seq<ChainEvent>, gone: ChainEvent -> bool, i: nat,
                                              n: Address, c: nat)
    requires i <= |es| && Knows(ProcessAll(s, es[..i], gone), n, c)
    ensures Knows(ProcessAll(s, es, gone), n, c) || exists e :: e in es && Removes(e, n, c, gone)
    decreases |es|
  {
    if i == |es| {
      assert es[..i] == es;
    } else {
      assert es[..|es| - 1][..i] == es[..i];
      KnownUnlessRemoved(s, es[..|es| - 1], gone, i, n, c);
      var last := es[|es| - 1];
      assert last in es;
      if !Removes(last, n, c, gone) && Knows(ProcessAll(s, es[..|es| - 1], gone), n, c) {
        assert Knows(ProcessAll(s, es, gone), n, c);
      }
    }
  }

  /** Event `i` opens the channel in a network that is known by then. */
  ghost predicate OpensAt(s: NodeState, es: seq<ChainEvent>, gone: ChainEvent -> bool, i: nat, n: Address, c: nat)
    requires i < |es|
  {
    && es[i].ChannelOpened? && es[i].network == n && es[i].channel == c
    && n in ProcessAll(s, es[..i], gone).channels
  }

  ghost predicate NotRemovedFrom(es: seq<ChainEvent>, gone: ChainEvent -> bool, i: nat, n: Address, c: nat) {
    forall j :: i <= j < |es| ==> !Removes(es[j], n, c, gone)
  }

  /** After some events the state knows a channel by this: it knew it before, or an event opened it. */
  ghost predicate KnownBy(s: NodeState, es: seq<ChainEvent>, gone: ChainEvent -> bool, n: Address, c: nat) {
    || (Knows(s, n, c) && NotRemovedFrom(es, gone, 0, n, c))
    || exists i :: 0 <= i < |es| && OpensAt(s, es, gone, i, n, c) && NotRemovedFrom(es, gone, i + 1, n, c)
  }

  lemma KnownByNext(s: NodeState, es: seq<ChainEvent>, e: ChainEvent, gone: ChainEvent -> bool, n: Address, c: nat)
    ensures KnownBy(s, es + [e], gone, n, c) <==>
      && !Removes(e, n, c, gone)
      && (KnownBy(s, es, gone, n, c)
          || (e.ChannelOpened? && e.network == n && e.channel == c && n in ProcessAll(s, es, gone).channels))
  {
    var all := es + [e];
    assert all[..|es|] == es;
    forall i: nat | i <= |es|
      ensures NotRemovedFrom(all, gone, i, n, c) <==> NotRemovedFrom(es, gone, i, n, c) && !Removes(e, n, c, gone)
    {
      if NotRemovedFrom(all, gone, i, n, c) {
        assert !Removes(all[|es|], n, c, gone);
        forall j | i <= j < |es| ensures !Removes(es[j], n, c, gone) { assert all[j] == es[j]; }
      }
    }
    forall i: nat | i < |es| ensures OpensAt(s, all, gone, i, n, c) <==> OpensAt(s, es, gone, i, n, c) {
      assert all[..i] == es[..i] && all[i] == es[i];
    }
    assert OpensAt(s, all, gone, |es|, n, c) <==>
      e.ChannelOpened? && e.network == n && e.channel == c && n in ProcessAll(s, es, gone).channels;
    if KnownBy(s, all, gone, n, c) && !(Knows(s, n, c) && NotRemovedFrom(all, gone, 0, n, c)) {
      var i :| 0 <= i < |all| && OpensAt(s, all, gone, i, n, c) && NotRemovedFrom(all, gone, i + 1, n, c);
      assert i < |es| ==> OpensAt(s, es, gone, i, n, c) && NotRemovedFrom(es, gone, i + 1, n, c);
    }
    if OpensAt(s, all, gone, |es|, n, c) {
      assert NotRemovedFrom(all, gone, |es| + 1, n, c);
      assert KnownBy(s, all, gone, n, c);
    } else if KnownBy(s, es, gone, n, c) && !Removes(e, n, c, gone)
              && !(Knows(s, n, c) && NotRemovedFrom(es, gone, 0, n, c)) {
      var i :| 0 <= i < |es| && OpensAt(s, es, gone, i, n, c) && NotRemovedFrom(es, gone, i + 1, n, c);
      assert OpensAt(s, all, gone, i, n, c) && NotRemovedFrom(all, gone, i + 1, n, c);
    }
  }

  /**
   After a batch the state knows a channel exactly if no event of the batch removed
   it since it was known before, or since an event opened it in a known network.
   */
  lemma {:induction false} KnownIff(s: NodeState, es: seq<ChainEvent>, gone: ChainEvent -> bool, n: Address, c: nat)
    ensures Knows(ProcessAll(s, es, gone), n, c) <==> KnownBy(s, es, gone, n, c)
    decreases |es|
  {
    if es != [] {
      var front, last := es[..|es| - 1], es[|es| - 1];
      assert es == front + [last];
      KnownIff(s, front, gone, n, c);
      KnownByNext(s, front, last, gone, n, c);
    }
  }

  /** The filters ask for all registries, networks and channels known, and for secrets if a channel is known. */
  lemma FiltersAskForState(s: NodeState, secrets: Address)
    ensures var f := FiltersFromNodeState(s, secrets);
      && f.registries == s.registries && f.networks == s.channels.Keys && f.secrets == Some(secrets)
      && (forall n, c :: Watches(f, n, c) <==> Knows(s, n, c))
      && (f.ignoreSecrets <==> forall n, c :: !Knows(s, n, c))
  {
    var watched := map n | n in s.channels && s.channels[n] != {} :: s.channels[n];
    if n, c :| Knows(s, n, c) { assert n in watched; }
    if n :| n in watched {
      var c :| c in s.channels[n];
      assert Knows(s, n, c);
    }
  }

  /** An opening makes its channel known, if its network is known or created by an earlier event. */
  lemma OpeningMakesKnown(s: NodeState, es: seq<ChainEvent>, gone: ChainEvent -> bool, o: ChainEvent)
    requires o in es && o.ChannelOpened?
    requires forall e :: e in es && e.NetworkCreated? ==> e.registry in s.registries
    requires o.network in s.channels
      || exists x :: x in es && x.NetworkCreated? && x.network == o.network && Before(es, x, o)
    ensures Knows(ProcessAll(s, es, gone), o.network, o.channel)
      || exists e :: e in es && Removes(e, o.network, o.channel, gone)
  {
    var i :| 0 <= i < |es| && es[i] == o;
    NetworksAfter(s, es[..i], gone);
    assert o.network in ProcessAll(s, es[..i], gone).channels;
    assert es[..i + 1][..i] == es[..i] && es[..i + 1][i] == o;
    KnownUnlessRemoved(s, es, gone, i + 1, o.network, o.channel);
  }

  /** A channel is removed only by the last of its events. */
  ghost predicate RemovedAtTheEnd(k: Setting, gone: ChainEvent -> bool) {
    forall e, n, c :: e in k.chain && Removes(e, n, c, gone) ==> !Due(k, n, c, e.block)
  }

  lemma RemovedIsNotDue(k: Setting, gone: ChainEvent -> bool, e: ChainEvent, n: Address, c: nat, to: nat)
    requires RemovedAtTheEnd(k, gone) && e in k.chain && Removes(e, n, c, gone) && e.block <= to
    ensures !Due(k, n, c, to)
  {
    if Due(k, n, c, to) { StillDue(k, n, c, e.block, to); }
  }

  /** The filter that the node would resume with is right up to block `last`. */
  ghost predicate Resumable(k: Setting, s: NodeState, secrets: Address, last: nat) {
    Tracks(k, FiltersFromNodeState(s, secrets), last)
  }

  lemma WatchesKnown(s: NodeState, secrets: Address)
    ensures forall n, c :: Watches(FiltersFromNodeState(s, secrets), n, c) <==> Knows(s, n, c)
  {
  }

  /** The events of a batch that starts with a filter which is right up to `last`. */
  ghost predicate BatchOf(k: Setting, f: Filter, last: nat, to: nat, es: seq<ChainEvent>) {
    WellFormed(k.chain) && Tracks(k, f, last) && last <= to && IsBatch(k.chain, f, k.node, last, to, es)
  }

  lemma BatchHolds(k: Setting, f: Filter, last: nat, to: nat, es: seq<ChainEvent>, e: ChainEvent)
    requires BatchOf(k, f, last, to, es)
    ensures e in es <==> e in k.chain && last < e.block <= to && Asked(k, f, e)
  {
    BatchFindsWanted(k, f, last, to, e);
    assert e in es <==> e in Elements(es);
  }

  lemma NetworksStayRight(k: Setting, f: Filter, s: NodeState, secrets: Address, last: nat, to: nat,
                          es: seq<ChainEvent>, gone: ChainEvent -> bool)
    requires BatchOf(k, f, last, to, es) && Resumable(k, s, secrets, last)
    ensures forall e :: e in es && e.NetworkCreated? ==> e.registry in s.registries
    ensures var t := ProcessAll(s, es, gone);
      && t.registries == s.registries && k.initial.networks <= t.channels.Keys
      && (forall n :: n in t.channels ==> KnownNetwork(k, n))
      && (forall e, n :: Creates(k, e, n) && e.block <= to ==> n in t.channels)
  {
    forall e | e in es && e.NetworkCreated? ensures e.registry in s.registries && Creates(k, e, e.network) {
      BatchHolds(k, f, last, to, es, e);
    }
    NetworksAfter(s, es, gone);
    forall e, n | Creates(k, e, n) && last < e.block <= to ensures e in es { BatchHolds(k, f, last, to, es, e); }
  }

  /** Openings of the batch are processed when their network is known: its creation stands before them. */
  lemma OpeningsStayRight(k: Setting, f: Filter, s: NodeState, secrets: Address, last: nat, to: nat,
                          es: seq<ChainEvent>, gone: ChainEvent -> bool, o: ChainEvent, n: Address, c: nat)
    requires BatchOf(k, f, last, to, es) && Resumable(k, s, secrets, last) && RemovedAtTheEnd(k, gone)
    requires Opens(k, o, n, c) && last < o.block <= to && Due(k, n, c, to)
    ensures Knows(ProcessAll(s, es, gone), n, c)
  {
    NetworksStayRight(k, f, s, secrets, last, to, es, gone);
    BatchHolds(k, f, last, to, es, o);
    if n !in s.channels {
      var x :| Creates(k, x, n);
      assert Depends(x, o);
      BatchHolds(k, f, last, to, es, x);
      assert Before(es, x, o);
    }
    OpeningMakesKnown(s, es, gone, o);
    NothingDueRemoved(k, f, last, to, es, gone, n, c);
  }

  lemma NothingDueRemoved(k: Setting, f: Filter, last: nat, to: nat, es: seq<ChainEvent>, gone: ChainEvent -> bool,
                          n: Address, c: nat)
    requires BatchOf(k, f, last, to, es) && RemovedAtTheEnd(k, gone) && Due(k, n, c, to)
    ensures forall e :: e in es ==> !Removes(e, n, c, gone)
  {
    forall e | e in es && Removes(e, n, c, gone) ensures false {
      BatchHolds(k, f, last, to, es, e);
      RemovedIsNotDue(k, gone, e, n, c, to);
    }
  }

  lemma ChannelsStayRight(k: Setting, f: Filter, s: NodeState, secrets: Address, last: nat, to: nat,
                          es: seq<ChainEvent>, gone: ChainEvent -> bool, n: Address, c: nat)
    requires BatchOf(k, f, last, to, es) && Resumable(k, s, secrets, last) && RemovedAtTheEnd(k, gone)
    ensures Knows(ProcessAll(s, es, gone), n, c) ==> KnownChannel(k, n, c)
    ensures Knows(s, n, c) && Due(k, n, c, to) ==> Knows(ProcessAll(s, es, gone), n, c)
  {
    WatchesKnown(s, secrets);
    if Knows(ProcessAll(s, es, gone), n, c) {
      OnlyOpenedAreKnown(s, es, gone, n, c);
      if !Knows(s, n, c) {
        var o :| o in es && o.ChannelOpened? && o.network == n && o.channel == c;
        BatchHolds(k, f, last, to, es, o);
        assert Opens(k, o, n, c);
      }
    }
    if Knows(s, n, c) && Due(k, n, c, to) {
      assert es[..0] == [];
      KnownUnlessRemoved(s, es, gone, 0, n, c);
      NothingDueRemoved(k, f, last, to, es, gone, n, c);
    }
  }

  /** Processing a batch leaves a state from which the node could resume after the batch. */
  lemma CommitKeepsResumable(k: Setting, f: Filter, s: NodeState, secrets: Address, last: nat, to: nat,
                             es: seq<ChainEvent>, gone: ChainEvent -> bool)
    requires BatchOf(k, f, last, to, es) && Resumable(k, s, secrets, last) && RemovedAtTheEnd(k, gone)
    ensures Resumable(k, ProcessAll(s, es, gone), secrets, to)
  {
    var t := ProcessAll(s, es, gone);
    NetworksStayRight(k, f, s, secrets, last, to, es, gone);
    WatchesKnown(s, secrets);
    WatchesKnown(t, secrets);
    forall n, c ensures Knows(t, n, c) ==> KnownChannel(k, n, c) {
      ChannelsStayRight(k, f, s, secrets, last, to, es, gone, n, c);
    }
    forall n, c | Knows(s, n, c) && Due(k, n, c, to) ensures Knows(t, n, c) {
      ChannelsStayRight(k, f, s, secrets, last, to, es, gone, n, c);
    }
    forall n, c | Due(k, n, c, to) ensures Due(k, n, c, last) { StillDue(k, n, c, last, to); }
    forall o, n, c | Opens(k, o, n, c) && o.block <= to && Due(k, n, c, to) ensures Knows(t, n, c) {
      if o.block > last { OpeningsStayRight(k, f, s, secrets, last, to, es, gone, o, n, c); }
    }
  }

  /* ---- runs with crashes ---- */

  /** The block, the processed events and the state are in the log; the filter is lost in a crash. */
  datatype Follower = Follower(block: nat, processed: seq<ChainEvent>, state: NodeState, filter: Filter)

  datatype FollowOp =
    | Commits(to: nat, events: seq<ChainEvent>)  // a batch that was fetched and committed
    | CutShort(to: nat, rounds: nat)             // a batch that timed out after some of its rounds
    | Restarts                                   // the node crashed and starts again

  ghost predicate FollowAllowed(k: Setting, s: Follower, op: FollowOp) {
    op.Commits? ==> s.block <= op.to && IsBatch(k.chain, s.filter, k.node, s.block, op.to, op.events)
  }

  ghost function FollowStep(k: Setting, s: Follower, op: FollowOp, secrets: Address,
                            gone: ChainEvent -> bool): Follower
  {
    match op
    case Commits(to, es) =>
      var filter := Grown(k.chain, s.filter, k.node, s.block, to, MAX_ROUNDS);
      Follower(to, s.processed + es, ProcessAll(s.state, es, gone), filter)
    case CutShort(to, rounds) => s.(filter := Grown(k.chain, s.filter, k.node, s.block, to, rounds))
    case Restarts => s.(filter := FiltersFromNodeState(s.state, secrets))
  }

  /** What the node has processed, secrets apart: exactly the wanted events up to its block. */
  ghost predicate ProcessedAll(k: Setting, processed: seq<ChainEvent>, block: nat) {
    forall e: ChainEvent :: !e.SecretRevealed? ==>
      (e in processed <==> e in k.chain && k.start < e.block <= block && Wanted(k, e))
  }

  ghost predicate FollowInv(k: Setting, s: Follower, secrets: Address) {
    && Tracks(k, s.filter, s.block) && s.filter.secrets == Some(secrets)
    && Resumable(k, s.state, secrets, s.block) && ProcessedAll(k, s.processed, s.block)
  }

  lemma BatchProcessed(k: Setting, f: Filter, processed: seq<ChainEvent>, block: nat, to: nat, es: seq<ChainEvent>)
    requires BatchOf(k, f, block, to, es) && ProcessedAll(k, processed, block)
    ensures ProcessedAll(k, processed + es, to)
  {
    forall e: ChainEvent | !e.SecretRevealed?
      ensures e in processed + es <==> e in k.chain && k.start < e.block <= to && Wanted(k, e)
    {
      BatchHolds(k, f, block, to, es, e);
    }
  }

  lemma FollowStepKeeps(k: Setting, s: Follower, op: FollowOp, secrets: Address, gone: ChainEvent -> bool)
    requires WellFormed(k.chain) && RemovedAtTheEnd(k, gone) && FollowInv(k, s, secrets) && FollowAllowed(k, s, op)
    ensures FollowInv(k, FollowStep(k, s, op, secrets, gone), secrets)
  {
    match op
    case Commits(to, es) =>
      BatchTracks(k, s.filter, s.block, to, MAX_ROUNDS);
      BatchProcessed(k, s.filter, s.processed, s.block, to, es);
      CommitKeepsResumable(k, s.filter, s.state, secrets, s.block, to, es, gone);
    case CutShort(to, rounds) => GrownTracks(k, s.filter, s.block, to, rounds);
    case Restarts =>
  }

  /** A node that starts from a state and a block, and the chain from then on. */
  ghost predicate StartsFrom(k: Setting, s: Follower, secrets: Address) {
    && s.block == k.start && s.processed == []
    && s.filter == k.initial == FiltersFromNodeState(s.state, secrets)
  }

  /** The operations lead from each state to the next. */
  ghost predicate IsFollowPath(k: Setting, states: seq<Follower>, ops: seq<FollowOp>, secrets: Address,
                               gone: ChainEvent -> bool)
  {
    && |states| == |ops| + 1
    && forall i :: 0 <= i < |ops| ==>
         FollowAllowed(k, states[i], ops[i]) && states[i + 1] == FollowStep(k, states[i], ops[i], secrets, gone)
  }

  ghost predicate IsFollowRun(k: Setting, states: seq<Follower>, ops: seq<FollowOp>, secrets: Address,
                              gone: ChainEvent -> bool)
  {
    IsFollowPath(k, states, ops, secrets, gone) && StartsFrom(k, states[0], secrets)
  }

  /** The operations lead from one state to the other. */
  ghost predicate LeadsTo(k: Setting, from: Follower, to: Follower, states: seq<Follower>, ops: seq<FollowOp>,
                          secrets: Address, gone: ChainEvent -> bool)
  {
    IsFollowPath(k, states, ops, secrets, gone) && states[0] == from && states[|ops|] == to
  }

  lemma PathGoesOn(k: Setting, from: Follower, to: Follower, states: seq<Follower>, ops: seq<FollowOp>,
                   secrets: Address, gone: ChainEvent -> bool, op: FollowOp, next: Follower)
    requires LeadsTo(k, from, to, states, ops, secrets, gone)
    requires FollowAllowed(k, to, op) && next == FollowStep(k, to, op, secrets, gone)
    ensures LeadsTo(k, from, next, states + [next], ops + [op], secrets, gone)
  {
    var more, done := states + [next], ops + [op];
    forall i | 0 <= i < |done|
      ensures FollowAllowed(k, more[i], done[i]) && more[i + 1] == FollowStep(k, more[i], done[i], secrets, gone)
    {
      if i < |ops| { assert more[i] == states[i] && more[i + 1] == states[i + 1] && done[i] == ops[i]; }
    }
  }

  lemma StartIsRight(k: Setting, s: Follower, secrets: Address)
    requires StartsFrom(k, s, secrets)
    ensures FollowInv(k, s, secrets)
  {
    InitialTracks(k);
  }

  lemma {:induction false} FollowRunKeeps(k: Setting, states: seq<Follower>, ops: seq<FollowOp>, secrets: Address,
                                          gone: ChainEvent -> bool, n: nat)
    requires WellFormed(k.chain) && RemovedAtTheEnd(k, gone) && IsFollowRun(k, states, ops, secrets, gone)
    requires n < |states|
    ensures FollowInv(k, states[n], secrets)
  {
    if n == 0 {
      StartIsRight(k, states[0], secrets);
    } else {
      FollowRunKeeps(k, states, ops, secrets, gone, n - 1);
      FollowStepKeeps(k, states[n - 1], ops[n - 1], secrets, gone);
    }
  }

  /* ---- the node ---- */

  datatype SyncResult = Raised | PartiallySynced | FullySynced

  /** The part of a node that follows the chain; `block`, `processed` and `state` stand for what is in the log. */
  class ChainFollower {
    const node: Address
    const secrets: Address
    var events: BlockchainEvents
    var block: nat
    var processed: seq<ChainEvent>
    var state: NodeState

    /** `_initialize_blockchain_events` on a state that was restored. */
    constructor (node: Address, secrets: Address, state: NodeState, block: nat, config: BF.Config)
      requires BF.ValidConfig(config)
      ensures fresh(events) && fresh(events.adjuster)
      ensures this.node == node && this.secrets == secrets
      ensures View() == Follower(block, [], state, FiltersFromNodeState(state, secrets))
      ensures forall chain :: Valid(Setting(chain, node, FiltersFromNodeState(state, secrets), block))
    {
      this.node := node;
      this.secrets := secrets;
      this.state := state;
      this.block := block;
      processed := [];
      events := new BlockchainEvents(node, FiltersFromNodeState(state, secrets), block, config);
      new;
      forall chain ensures Valid(Setting(chain, node, FiltersFromNodeState(state, secrets), block)) {
        StartIsRight(Setting(chain, node, FiltersFromNodeState(state, secrets), block), View(), secrets);
      }
    }

    function View(): Follower
      reads this, events
    {
      Follower(block, processed, state, events.eventFilter)
    }

    ghost predicate Valid(k: Setting)
      reads this, events, events.adjuster
    {
      && events.Valid() && events.node == node == k.node && events.last == block
      && FollowInv(k, View(), secrets)
    }

    /** Starts again from what is in the log, after a crash at any point. */
    method Restart(k: Setting, config: BF.Config)
      requires Valid(k) && BF.ValidConfig(config)
      modifies this
      ensures Valid(k) && fresh(events) && fresh(events.adjuster)
      ensures View() == FollowStep(k, old(View()), Restarts, secrets, e => false)
    {
      events := new BlockchainEvents(node, FiltersFromNodeState(state, secrets), block, config);
    }

    /** Processes the events of a batch one by one and commits them together with its block. */
    method Commit(block: nat, es: seq<ChainEvent>, gone: ChainEvent -> bool)
      modifies this`block, this`processed, this`state
      ensures this.block == block && processed == old(processed) + es && state == ProcessAll(old(state), es, gone)
    {
      for i := 0 to |es|
        invariant processed == old(processed) + es[..i] && state == ProcessAll(old(state), es[..i], gone)
      {
        assert es[..i + 1][..i] == es[..i];
        state := Process(state, es[i], gone);
        processed := processed + [es[i]];
      }
      assert es[..|es|] == es;
      this.block := block;
    }

    /** One pass of the synchronization loop, as the step `op`; fails when fetching raises. */
    method FollowBatch(k: Setting, head: nat, timeoutAt: Option<nat>, speed: BF.Speed, gone: ChainEvent -> bool)
      returns (ok: bool, ghost op: FollowOp)
      requires Valid(k) && WellFormed(k.chain) && RemovedAtTheEnd(k, gone) && head > events.last
      modifies this`block, this`processed, this`state, events, events.adjuster
      ensures Valid(k) && old(block) <= block <= head
      ensures FollowAllowed(k, old(View()), op) && View() == FollowStep(k, old(View()), op, secrets, gone)
      ensures ok && block == old(block) ==>
        BF.RawSize(events.adjuster.config, events.adjuster.scale)
          < BF.RawSize(events.adjuster.config, old(events.adjuster.scale))
    {
      ghost var before, was := events.Fetcher(), View();
      var polled;
      ghost var reply, rounds;
      polled, reply, rounds := events.FetchLogsInBatch(k.chain, head, timeoutAt, speed);
      assert polled.Polled? ==> IsBatch(k.chain, was.filter, k.node, was.block, polled.block, polled.events);
      assert polled.Polled? ==>
        events.eventFilter == Grown(k.chain, was.filter, k.node, was.block, polled.block, MAX_ROUNDS);
      BF.FetchMakesProgress(events.adjuster.config, before, head, reply);
      if polled.Polled? {
        op := Commits(polled.block, polled.events);
        Commit(polled.block, polled.events, gone);
        assert View() == FollowStep(k, was, op, secrets, gone);
      } else {
        op := CutShort(BF.ToBlock(events.adjuster.config, before, head), rounds);
      }
      FollowStepKeeps(k, was, op, secrets, gone);
      ok := polled.Polled? || polled.TimedOut?;
    }

    /** The same as the next step of a path that leads here from `start`. */
    method FollowOn(k: Setting, head: nat, timeoutAt: Option<nat>, speed: BF.Speed, gone: ChainEvent -> bool,
                    ghost start: Follower, ghost states: seq<Follower>, ghost ops: seq<FollowOp>)
      returns (ok: bool, ghost more: seq<Follower>, ghost done: seq<FollowOp>)
      requires Valid(k) && WellFormed(k.chain) && RemovedAtTheEnd(k, gone) && head > events.last
      requires LeadsTo(k, start, View(), states, ops, secrets, gone)
      modifies this`block, this`processed, this`state, events, events.adjuster
      ensures Valid(k) && old(block) <= block <= head
      ensures LeadsTo(k, start, View(), more, done, secrets, gone)
      ensures ok && block == old(block) ==>
        BF.RawSize(events.adjuster.config, events.adjuster.scale)
          < BF.RawSize(events.adjuster.config, old(events.adjuster.scale))
    {
      ghost var before, op := View(), Restarts;
      ok, op := FollowBatch(k, head, timeoutAt, speed, gone);
      PathGoesOn(k, start, before, states, ops, secrets, gone, op, View());
      more, done := states + [View()], ops + [op];
    }

    /**
     `_best_effort_synchronize_with_confirmed_head`.  In round `n` of the loop
     `hasTime(n)` tells whether there is time left, and the next two functions
     what happens to the requests.
     */
    method Synchronize(k: Setting, head: nat, hasTime: nat -> bool, timeoutAt: nat -> Option<nat>,
                       speed: nat -> BF.Speed, gone: ChainEvent -> bool)
      returns (r: SyncResult, ghost states: seq<Follower>, ghost ops: seq<FollowOp>)
      requires Valid(k) && WellFormed(k.chain) && RemovedAtTheEnd(k, gone)
      modifies this`block, this`processed, this`state, events, events.adjuster
      ensures Valid(k) && old(block) <= block <= Max(old(block), head)
      ensures old(block) > head ==> r.Raised? && block == old(block)
      ensures !r.Raised? ==> (r.FullySynced? <==> block == head)
      ensures LeadsTo(k, old(View()), View(), states, ops, secrets, gone)
    {
      var n := 0;
      ghost var start := View();
      states, ops := [start], [];
      while hasTime(n) && head > events.last
        invariant Valid(k) && old(block) <= block <= Max(old(block), head)
        invariant LeadsTo(k, start, View(), states, ops, secrets, gone)
        decreases Max(head - block, 0), BF.RawSize(events.adjuster.config, events.adjuster.scale)
      {
        var ok;
        ok, states, ops := FollowOn(k, head, timeoutAt(n), speed(n), gone, start, states, ops);
        if !ok {
          r := Raised;
          return;
        }
        n := n + 1;
      }
      if block > head {
        r := Raised;
        return;
      }
      r := if block < head then PartiallySynced else FullySynced;
    }
  }
}
