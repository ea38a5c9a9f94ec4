/**
 Which blockchain events a node asks for (`raiden_common/blockchain/filters.py`)
 and how the filters grow with the events of a batch
 (`raiden_common/blockchain/events.py`).
 */
module EventFilters {
  import opened Options

  type Address(==, !new)

  datatype Kind = Closed | Settled | Deposit | Withdrawal | Unlocked | ProofUpdated

  /** `index` tells events apart that are alike otherwise. */
  datatype ChainEvent =
    | NetworkCreated(block: nat, index: nat, registry: Address, network: Address)
    | SecretRevealed(block: nat, index: nat, registry: Address)
    | ChannelOpened(block: nat, index: nat, network: Address, channel: nat, first: Address, second: Address)
    | ChannelChanged(block: nat, index: nat, network: Address, channel: nat, kind: Kind)

  /** The contract that emitted the event. */
  function Origin(e: ChainEvent): Address {
    if e.NetworkCreated? || e.SecretRevealed? then e.registry else e.network
  }

  /** `RaidenContractFilter`, without the service registry. */
  datatype Filter = Filter(
    registries: set<Address>,
    networks: set<Address>,
    channels: map<Address, set<nat>>,
    secrets: Option<Address>,
    ignoreSecrets: bool)

  predicate Watches(f: Filter, n: Address, c: nat) { n in f.channels && c in f.channels[n] }

  /** `__bool__`. */
  predicate Active(f: Filter) {
    f.registries != {} || f.networks != {} || (exists n :: n in f.channels && f.channels[n] != {}) || f.secrets.Some?
  }

  predicate OpenedBy(e: ChainEvent, node: Address) {
    e.ChannelOpened? && (e.first == node || e.second == node)
  }

  /** The filter asks for the event. */
  predicate Selects(f: Filter, e: ChainEvent, node: Address) {
    match e
    case NetworkCreated(_, _, r, _) => r in f.registries
    case SecretRevealed(_, _, r) => f.secrets == Some(r) && !f.ignoreSecrets
    case ChannelOpened(_, _, n, _, first, second) => n in f.networks && (first == node || second == node)
    case ChannelChanged(_, _, n, c, kind) => Watches(f, n, c) && kind != ProofUpdated
  }

  /** `union`. */
  function Union(f: Filter, g: Filter): Filter
    requires f.secrets.None? || g.secrets.None? || f.secrets == g.secrets
  {
    Filter(
      f.registries + g.registries,
      f.networks + g.networks,
      map n | n in f.channels.Keys + g.channels.Keys ::
        (if n in f.channels then f.channels[n] else {}) + (if n in g.channels then g.channels[n] else {}),
      if f.secrets.Some? then f.secrets else g.secrets,
      f.ignoreSecrets && g.ignoreSecrets)
  }

  /**
   The union asks for exactly what either filter asks for, and for secrets once one
   filter names their registry and one does not ignore them.
   */
  lemma UnionSelects(f: Filter, g: Filter, e: ChainEvent, node: Address)
    requires f.secrets.None? || g.secrets.None? || f.secrets == g.secrets
    ensures Selects(Union(f, g), e, node) <==>
      if e.SecretRevealed? then
        Some(e.registry) in {f.secrets, g.secrets} && !(f.ignoreSecrets && g.ignoreSecrets)
      else
        Selects(f, e, node) || Selects(g, e, node)
  {
  }

  function OpenedIn(es: set<ChainEvent>, n: Address): set<nat> {
    set e | e in es && e.ChannelOpened? && e.network == n :: e.channel
  }

  function OpenedNetworks(es: set<ChainEvent>): set<Address> {
    set e | e in es && e.ChannelOpened? :: e.network
  }

  /** `new_filters_from_events`. */
  function NewFilters(es: set<ChainEvent>): Filter {
    Filter(
      {},
      set e | e in es && e.NetworkCreated? :: e.network,
      map n | n in OpenedNetworks(es) :: OpenedIn(es, n),
      None,
      OpenedNetworks(es) == {})
  }

  lemma NewFiltersWatch(es: set<ChainEvent>, n: Address, c: nat)
    ensures Watches(NewFilters(es), n, c) <==>
      exists e :: e in es && e.ChannelOpened? && e.network == n && e.channel == c
  {
    if e :| e in es && e.ChannelOpened? && e.network == n && e.channel == c {
      assert n in OpenedNetworks(es) && c in OpenedIn(es, n);
    }
  }

  /* ---- one batch as sets ---- */

  /** The events of the blocks after `after`, up to `to`, that the filter asks for. */
  function Selected(chain: seq<ChainEvent>, f: Filter, node: Address, after: nat, to: nat): set<ChainEvent> {
    set e | e in chain && after < e.block <= to && Selects(f, e, node)
  }

  /** The filter of round `k` of a batch that starts with `f`. */
  function RoundFilter(chain: seq<ChainEvent>, f: Filter, node: Address, after: nat, to: nat, k: nat): Filter {
    if k == 0 then f else NewFilters(Selected(chain, RoundFilter(chain, f, node, after, to, k - 1), node, after, to))
  }

  /** The events found in the first `k` rounds. */
  function Found(chain: seq<ChainEvent>, f: Filter, node: Address, after: nat, to: nat, k: nat): set<ChainEvent> {
    if k == 0 then {} else
    Found(chain, f, node, after, to, k - 1)
    + Selected(chain, RoundFilter(chain, f, node, after, to, k - 1), node, after, to)
  }

  const MAX_ROUNDS: nat := 3

  /** A filter that asks for no registry finds no network; one that asks for no network finds no channel. */
  lemma RoundsNarrow(chain: seq<ChainEvent>, f: Filter, node: Address, after: nat, to: nat, k: nat)
    requires k > 0
    ensures var g := RoundFilter(chain, f, node, after, to, k);
      && g.registries == {} && g.secrets == None
      && (k >= 2 ==> g.networks == {})
      && (k >= 3 ==> !Active(g))
  {
    if k >= 3 {
      RoundsNarrow(chain, f, node, after, to, k - 1);
      var g := RoundFilter(chain, f, node, after, to, k - 1);
      assert OpenedNetworks(Selected(chain, g, node, after, to)) == {};
    }
  }

  /** After the third round there is nothing left to ask for. */
  lemma AtMostThreeRounds(chain: seq<ChainEvent>, f: Filter, node: Address, after: nat, to: nat, k: nat)
    requires Active(RoundFilter(chain, f, node, after, to, k))
    ensures k < MAX_ROUNDS
  {
    if k >= 3 { RoundsNarrow(chain, f, node, after, to, k); }
  }

  /* ---- what a node has to see ---- */

  /** A chain, seen from a node that starts with a filter after block `start`. */
  datatype Setting = Setting(chain: seq<ChainEvent>, node: Address, initial: Filter, start: nat)

  ghost predicate Creates(k: Setting, e: ChainEvent, n: Address) {
    e in k.chain && e.NetworkCreated? && e.block > k.start && e.registry in k.initial.registries && e.network == n
  }

  /** The network is known from the start or follows from a creation event. */
  ghost predicate KnownNetwork(k: Setting, n: Address) {
    n in k.initial.networks || exists e :: Creates(k, e, n)
  }

  ghost predicate Opens(k: Setting, e: ChainEvent, n: Address, c: nat) {
    e in k.chain && e.block > k.start && OpenedBy(e, k.node) && KnownNetwork(k, n) && e.network == n && e.channel == c
  }

  ghost predicate KnownChannel(k: Setting, n: Address, c: nat) {
    Watches(k.initial, n, c) || exists e :: Opens(k, e, n, c)
  }

  /** The closure under creation events: registry, network and own channel events. */
  ghost predicate Wanted(k: Setting, e: ChainEvent) {
    match e
    case NetworkCreated(_, _, r, _) => r in k.initial.registries
    case SecretRevealed(_, _, _) => false
    case ChannelOpened(_, _, n, _, _, _) => KnownNetwork(k, n) && OpenedBy(e, k.node)
    case ChannelChanged(_, _, n, c, kind) => KnownChannel(k, n, c) && kind != ProofUpdated
  }

  /** The wanted events and, as long as the filter does not ignore them, the secrets. */
  ghost predicate Asked(k: Setting, f: Filter, e: ChainEvent) {
    if e.SecretRevealed? then Selects(f, e, k.node) else Wanted(k, e)
  }

  /** `c` created the network or opened the channel that `e` belongs to. */
  predicate Depends(c: ChainEvent, e: ChainEvent) {
    || (c.NetworkCreated? && (e.ChannelOpened? || e.ChannelChanged?) && e.network == c.network)
    || (c.ChannelOpened? && e.ChannelChanged? && e.network == c.network && e.channel == c.channel)
  }

  /** No event of a network or channel comes in a block before its creation. */
  ghost predicate WellFormed(chain: seq<ChainEvent>) {
    forall c, e :: c in chain && e in chain && Depends(c, e) ==> c.block <= e.block
  }

  ghost predicate ComesAfter(k: Setting, e: ChainEvent, n: Address, c: nat, last: nat) {
    e in k.chain && e.ChannelChanged? && e.network == n && e.channel == c && e.block > last
  }

  /** There are events of the channel after block `last`. */
  ghost predicate Due(k: Setting, n: Address, c: nat, last: nat) { exists e :: ComesAfter(k, e, n, c, last) }

  /**
   The filter holds everything created up to block `last`, except for channels
   whose events are all in the past, and nothing that is not wanted.
   */
  ghost predicate Tracks(k: Setting, g: Filter, last: nat) {
    k.start <= last && TracksNetworks(k, g, last) && TracksChannels(k, g, last)
  }

  ghost predicate TracksNetworks(k: Setting, g: Filter, last: nat) {
    && g.registries == k.initial.registries && k.initial.networks <= g.networks
    && (forall n :: n in g.networks ==> KnownNetwork(k, n))
    && (forall e, n :: Creates(k, e, n) && e.block <= last ==> n in g.networks)
  }

  ghost predicate TracksChannels(k: Setting, g: Filter, last: nat) {
    && (forall n, c :: Watches(k.initial, n, c) && Due(k, n, c, last) ==> Watches(g, n, c))
    && (forall n, c :: Watches(g, n, c) ==> KnownChannel(k, n, c))
    && (forall e, n, c :: Opens(k, e, n, c) && e.block <= last && Due(k, n, c, last) ==> Watches(g, n, c))
  }

  lemma StillDue(k: Setting, n: Address, c: nat, last: nat, to: nat)
    requires last <= to && Due(k, n, c, to)
    ensures Due(k, n, c, last)
  {
    var e :| ComesAfter(k, e, n, c, to);
    assert ComesAfter(k, e, n, c, last);
  }

  /** What the filters of the later rounds may hold. */
  ghost predicate Within(k: Setting, g: Filter) {
    && g.secrets == None && g.registries == {}
    && (forall n :: n in g.networks ==> KnownNetwork(k, n))
    && (forall n, c :: Watches(g, n, c) ==> KnownChannel(k, n, c))
  }

  lemma SelectedIsWanted(k: Setting, g: Filter, after: nat, to: nat, e: ChainEvent)
    requires g.registries <= k.initial.registries
    requires forall n :: n in g.networks ==> KnownNetwork(k, n)
    requires forall n, c :: Watches(g, n, c) ==> KnownChannel(k, n, c)
    requires e in Selected(k.chain, g, k.node, after, to) && !e.SecretRevealed?
    ensures Wanted(k, e)
  {
  }

  lemma NewFiltersWithin(k: Setting, es: set<ChainEvent>)
    requires forall e :: e in es ==> e in k.chain && e.block > k.start && (e.SecretRevealed? || Wanted(k, e))
    ensures Within(k, NewFilters(es))
  {
    forall n | n in NewFilters(es).networks ensures KnownNetwork(k, n) {
      var e :| e in es && e.NetworkCreated? && e.network == n;
      assert Creates(k, e, n);
    }
    forall n, c | Watches(NewFilters(es), n, c) ensures KnownChannel(k, n, c) {
      NewFiltersWatch(es, n, c);
      var e :| e in es && e.ChannelOpened? && e.network == n && e.channel == c;
      assert Opens(k, e, n, c);
    }
  }

  lemma {:induction false} RoundsWithin(k: Setting, g: Filter, last: nat, to: nat, i: nat)
    requires Tracks(k, g, last)
    ensures i > 0 ==> Within(k, RoundFilter(k.chain, g, k.node, last, to, i))
    ensures forall e :: e in Found(k.chain, g, k.node, last, to, i) ==>
      e in k.chain && last < e.block <= to && (e.SecretRevealed? || Wanted(k, e))
  {
    if i > 0 {
      RoundsWithin(k, g, last, to, i - 1);
      var h := RoundFilter(k.chain, g, k.node, last, to, i - 1);
      forall e | e in Selected(k.chain, h, k.node, last, to) && !e.SecretRevealed? ensures Wanted(k, e) {
        SelectedIsWanted(k, h, last, to, e);
      }
      NewFiltersWithin(k, Selected(k.chain, h, k.node, last, to));
    }
  }

  /** The events found by round `k` include those of every earlier round. */
  lemma FoundRounds(chain: seq<ChainEvent>, f: Filter, node: Address, after: nat, to: nat, e: ChainEvent)
    ensures e in Found(chain, f, node, after, to, 3) <==>
      || e in Selected(chain, f, node, after, to)
      || e in Selected(chain, RoundFilter(chain, f, node, after, to, 1), node, after, to)
      || e in Selected(chain, RoundFilter(chain, f, node, after, to, 2), node, after, to)
  {
    assert Found(chain, f, node, after, to, 1) == Selected(chain, f, node, after, to);
    assert Found(chain, f, node, after, to, 2)
      == Found(chain, f, node, after, to, 1)
         + Selected(chain, RoundFilter(chain, f, node, after, to, 1), node, after, to);
  }

  /** A wanted opening is found in the first or, for a network of this batch, in the second round. */
  lemma OpeningFound(k: Setting, g: Filter, last: nat, to: nat, o: ChainEvent)
    requires WellFormed(k.chain) && Tracks(k, g, last)
    requires o in k.chain && o.ChannelOpened? && last < o.block <= to && Wanted(k, o)
    ensures || o in Selected(k.chain, g, k.node, last, to)
            || o in Selected(k.chain, RoundFilter(k.chain, g, k.node, last, to, 1), k.node, last, to)
  {
    if o.network !in g.networks {
      var c :| Creates(k, c, o.network);
      assert Depends(c, o) && c.block > last;
      assert c in Selected(k.chain, g, k.node, last, to);
      assert o.network in RoundFilter(k.chain, g, k.node, last, to, 1).networks;
    }
  }

  /** A wanted channel event is found one round after the opening of its channel at the latest. */
  lemma ChangeFound(k: Setting, g: Filter, last: nat, to: nat, e: ChainEvent)
    requires WellFormed(k.chain) && Tracks(k, g, last)
    requires e in k.chain && e.ChannelChanged? && last < e.block <= to && Wanted(k, e)
    ensures e in Found(k.chain, g, k.node, last, to, 3)
  {
    FoundRounds(k.chain, g, k.node, last, to, e);
    assert ComesAfter(k, e, e.network, e.channel, last);
    if !Watches(g, e.network, e.channel) {
      var o :| Opens(k, o, e.network, e.channel);
      assert Depends(o, e) && o.block > last;
      OpeningFound(k, g, last, to, o);
      var first := Selected(k.chain, g, k.node, last, to);
      var second := Selected(k.chain, RoundFilter(k.chain, g, k.node, last, to, 1), k.node, last, to);
      NewFiltersWatch(if o in first then first else second, e.network, e.channel);
    }
  }

  /** Only the first round asks for secrets: the filters that follow from events name no registry of secrets. */
  lemma {:induction false} SecretsInFirstRound(chain: seq<ChainEvent>, f: Filter, node: Address, after: nat, to: nat,
                                               k: nat, e: ChainEvent)
    requires e.SecretRevealed? && k > 0
    ensures e in Found(chain, f, node, after, to, k) <==> e in Selected(chain, f, node, after, to)
    decreases k
  {
    if k == 1 {
      assert Found(chain, f, node, after, to, 0) == {};
    } else {
      SecretsInFirstRound(chain, f, node, after, to, k - 1, e);
      RoundsNarrow(chain, f, node, after, to, k - 1);
    }
  }

  lemma WantedIsFound(k: Setting, g: Filter, last: nat, to: nat, e: ChainEvent)
    requires WellFormed(k.chain) && Tracks(k, g, last) && e in k.chain && last < e.block <= to && Wanted(k, e)
    ensures e in Found(k.chain, g, k.node, last, to, 3)
  {
    FoundRounds(k.chain, g, k.node, last, to, e);
    match e
    case NetworkCreated(_, _, _, _) =>
    case ChannelOpened(_, _, _, _, _, _) => OpeningFound(k, g, last, to, e);
    case ChannelChanged(_, _, _, _, _) => ChangeFound(k, g, last, to, e);
  }

  /**
   The three rounds of a batch find exactly the wanted events of its blocks,
   whatever the filter has gathered before, and the secrets of these blocks
   exactly when the filter that the batch starts with does not ignore them.
   */
  lemma BatchFindsWanted(k: Setting, g: Filter, last: nat, to: nat, e: ChainEvent)
    requires WellFormed(k.chain) && Tracks(k, g, last)
    ensures e in Found(k.chain, g, k.node, last, to, 3) <==> e in k.chain && last < e.block <= to && Asked(k, g, e)
  {
    if e.SecretRevealed? {
      SecretsInFirstRound(k.chain, g, k.node, last, to, 3, e);
    } else {
      RoundsWithin(k, g, last, to, 3);
      if e in k.chain && last < e.block <= to && Wanted(k, e) { WantedIsFound(k, g, last, to, e); }
    }
  }

  /* ---- how the filter grows ---- */

  /** The filter of the node after `k` rounds. */
  function Grown(chain: seq<ChainEvent>, f: Filter, node: Address, after: nat, to: nat, k: nat): (g: Filter)
    ensures g.secrets == f.secrets
  {
    if k == 0 then f else
    Union(Grown(chain, f, node, after, to, k - 1), RoundFilter(chain, f, node, after, to, k))
  }

  ghost predicate Holds(g: Filter, f: Filter) {
    f.networks <= g.networks && forall n, c :: Watches(f, n, c) ==> Watches(g, n, c)
  }

  lemma UnionHolds(f: Filter, g: Filter)
    requires g.secrets.None?
    ensures Holds(Union(f, g), f) && Holds(Union(f, g), g)
    ensures forall n, c :: Watches(Union(f, g), n, c) ==> Watches(f, n, c) || Watches(g, n, c)
  {
  }

  lemma HoldsTransitive(f: Filter, g: Filter, h: Filter)
    requires Holds(f, g) && Holds(g, h)
    ensures Holds(f, h)
  {
  }

  lemma {:induction false} GrownHolds(chain: seq<ChainEvent>, f: Filter, node: Address, after: nat, to: nat, k: nat,
                                      j: nat)
    requires j <= k
    ensures Holds(Grown(chain, f, node, after, to, k), RoundFilter(chain, f, node, after, to, j))
    decreases k
  {
    if k > 0 {
      var before, next := Grown(chain, f, node, after, to, k - 1), RoundFilter(chain, f, node, after, to, k);
      UnionHolds(before, next);
      if j < k {
        GrownHolds(chain, f, node, after, to, k - 1, j);
        HoldsTransitive(Union(before, next), before, RoundFilter(chain, f, node, after, to, j));
      }
    }
  }

  lemma UnionTracks(k: Setting, g: Filter, h: Filter, last: nat)
    requires Tracks(k, g, last) && Within(k, h)
    ensures Tracks(k, Union(g, h), last)
  {
    UnionHolds(g, h);
  }

  /** A batch that is cut short after any round leaves a filter that is still right for the blocks fetched before. */
  lemma {:induction false} GrownTracks(k: Setting, g: Filter, last: nat, to: nat, i: nat)
    requires Tracks(k, g, last)
    ensures Tracks(k, Grown(k.chain, g, k.node, last, to, i), last)
    decreases i
  {
    if i > 0 {
      GrownTracks(k, g, last, to, i - 1);
      RoundsWithin(k, g, last, to, i);
      UnionTracks(k, Grown(k.chain, g, k.node, last, to, i - 1), RoundFilter(k.chain, g, k.node, last, to, i), last);
    }
  }

  /** What round `j` finds is in the filter of the node from then on. */
  lemma FoundIsTracked(chain: seq<ChainEvent>, f: Filter, node: Address, after: nat, to: nat, j: nat, rounds: nat,
                       e: ChainEvent)
    requires j < rounds && e in Selected(chain, RoundFilter(chain, f, node, after, to, j), node, after, to)
    ensures e.NetworkCreated? ==> e.network in Grown(chain, f, node, after, to, rounds).networks
    ensures e.ChannelOpened? ==> Watches(Grown(chain, f, node, after, to, rounds), e.network, e.channel)
  {
    var es := Selected(chain, RoundFilter(chain, f, node, after, to, j), node, after, to);
    GrownHolds(chain, f, node, after, to, rounds, j + 1);
    if e.ChannelOpened? { NewFiltersWatch(es, e.network, e.channel); }
  }

  lemma CreationTracked(k: Setting, g: Filter, last: nat, to: nat, rounds: nat, e: ChainEvent, n: Address)
    requires g.registries == k.initial.registries && Creates(k, e, n) && last < e.block <= to && rounds >= 1
    ensures n in Grown(k.chain, g, k.node, last, to, rounds).networks
  {
    assert e in Selected(k.chain, g, k.node, last, to) && e.network == n;
    FoundIsTracked(k.chain, g, k.node, last, to, 0, rounds, e);
  }

  lemma OpeningTracked(k: Setting, g: Filter, last: nat, to: nat, rounds: nat, e: ChainEvent, n: Address, c: nat)
    requires WellFormed(k.chain) && Tracks(k, g, last) && Opens(k, e, n, c) && last < e.block <= to && rounds >= 2
    ensures Watches(Grown(k.chain, g, k.node, last, to, rounds), n, c)
  {
    OpeningFound(k, g, last, to, e);
    if e in Selected(k.chain, g, k.node, last, to) {
      FoundIsTracked(k.chain, g, k.node, last, to, 0, rounds, e);
    } else {
      FoundIsTracked(k.chain, g, k.node, last, to, 1, rounds, e);
    }
  }

  /** A whole batch leaves a filter that is right up to its last block. */
  lemma BatchTracks(k: Setting, g: Filter, last: nat, to: nat, rounds: nat)
    requires WellFormed(k.chain) && Tracks(k, g, last) && last <= to && rounds >= 2
    ensures Tracks(k, Grown(k.chain, g, k.node, last, to, rounds), to)
  {
    GrownTracks(k, g, last, to, rounds);
    var after := Grown(k.chain, g, k.node, last, to, rounds);
    forall e, n | Creates(k, e, n) && e.block <= to ensures n in after.networks {
      if e.block > last { CreationTracked(k, g, last, to, rounds, e, n); }
    }
    forall n, c | Due(k, n, c, to) ensures Due(k, n, c, last) { StillDue(k, n, c, last, to); }
    forall e, n, c | Opens(k, e, n, c) && e.block <= to && Due(k, n, c, to) ensures Watches(after, n, c) {
      if e.block > last { OpeningTracked(k, g, last, to, rounds, e, n, c); }
    }
  }

  /* ---- stopping early ---- */

  lemma InactiveSelectsNothing(chain: seq<ChainEvent>, f: Filter, node: Address, after: nat, to: nat)
    requires !Active(f)
    ensures Selected(chain, f, node, after, to) == {}
  {
    forall e ensures !Selects(f, e, node) {
      if e.ChannelChanged? && e.network in f.channels { assert f.channels[e.network] == {}; }
    }
  }

  lemma UnionWithNothing(g: Filter)
    ensures !Active(NewFilters({})) && Union(g, NewFilters({})) == g
  {
    assert NewFilters({}).channels.Keys == {};
    assert Union(g, NewFilters({})).channels.Keys == g.channels.Keys;
    assert forall n :: n in g.channels ==> Union(g, NewFilters({})).channels[n] == g.channels[n];
    assert Union(g, NewFilters({})).channels == g.channels;
    assert Union(g, NewFilters({})).networks == g.networks;
  }

  lemma InactiveRound(chain: seq<ChainEvent>, f: Filter, node: Address, after: nat, to: nat, k: nat)
    requires !Active(RoundFilter(chain, f, node, after, to, k))
    ensures RoundFilter(chain, f, node, after, to, k + 1) == NewFilters({})
    ensures Found(chain, f, node, after, to, k + 1) == Found(chain, f, node, after, to, k)
    ensures Grown(chain, f, node, after, to, k + 1) == Grown(chain, f, node, after, to, k)
  {
    InactiveSelectsNothing(chain, RoundFilter(chain, f, node, after, to, k), node, after, to);
    UnionWithNothing(Grown(chain, f, node, after, to, k));
  }

  /** Once a round has nothing to ask for, the later rounds neither find anything nor change the filter. */
  lemma {:induction false} InactiveStops(chain: seq<ChainEvent>, f: Filter, node: Address, after: nat, to: nat, i: nat,
                                         k: nat)
    requires i <= k && !Active(RoundFilter(chain, f, node, after, to, i))
    ensures Found(chain, f, node, after, to, k) == Found(chain, f, node, after, to, i)
    ensures Grown(chain, f, node, after, to, k) == Grown(chain, f, node, after, to, i)
    decreases k - i
  {
    if i < k {
      InactiveRound(chain, f, node, after, to, i);
      assert !Active(RoundFilter(chain, f, node, after, to, i + 1)) by { UnionWithNothing(f); }
      InactiveStops(chain, f, node, after, to, i + 1, k);
    }
  }
}
