/**
 Fetching blockchain events batch by batch (`raiden_common/blockchain/events.py`).
 What the Ethereum node answers, how fast it is and which request times out are
 inputs.
 */
module BlockchainEvents {
  import opened Options
  import opened Integers
  import opened EventFilters
  import opened EventQueries
  import opened EventRepeats
  import BF = BatchFetching

  function Elements(es: seq<ChainEvent>): set<ChainEvent> { set e | e in es }

  /** `new_filters_from_events`. */
  method NewFiltersFromEvents(es: seq<ChainEvent>) returns (f: Filter)
    ensures f == NewFilters(Elements(es))
  {
    var networks: set<Address> := {};
    var channels: map<Address, set<nat>> := map[];
    var ignoreSecrets := true;
    for i := 0 to |es|
      invariant networks == set e | e in es[..i] && e.NetworkCreated? :: e.network
      invariant channels == NewFilters(Elements(es[..i])).channels
      invariant ignoreSecrets <==> channels == map[]
    {
      ElementsGrow(es, i);
      if es[i].ChannelOpened? { AddOpened(Elements(es[..i]), es[i]); } else { AddOther(Elements(es[..i]), es[i]); }
      assert es[..i + 1] == es[..i] + [es[i]];
      if es[i].NetworkCreated? {
        networks := networks + {es[i].network};
      } else if es[i].ChannelOpened? {
        var before := if es[i].network in channels then channels[es[i].network] else {};
        channels := channels[es[i].network := before + {es[i].channel}];
        ignoreSecrets := false;
      }
    }
    assert es[..|es|] == es;
    f := Filter({}, networks, channels, None, ignoreSecrets);
    assert f.networks == NewFilters(Elements(es)).networks;
    assert OpenedNetworks(Elements(es)) == channels.Keys;
  }

  lemma ElementsGrow(es: seq<ChainEvent>, i: nat)
    requires i < |es|
    ensures Elements(es[..i + 1]) == Elements(es[..i]) + {es[i]}
  {
    assert es[..i + 1] == es[..i] + [es[i]];
  }

  lemma AddOther(es: set<ChainEvent>, x: ChainEvent)
    requires !x.ChannelOpened?
    ensures NewFilters(es + {x}).channels == NewFilters(es).channels
  {
    assert OpenedNetworks(es + {x}) == OpenedNetworks(es);
    forall n ensures OpenedIn(es + {x}, n) == OpenedIn(es, n) { }
  }

  lemma AddOpened(es: set<ChainEvent>, x: ChainEvent)
    requires x.ChannelOpened?
    ensures NewFilters(es + {x}).channels == NewFilters(es).channels[x.network := OpenedIn(es, x.network) + {x.channel}]
    ensures x.network !in NewFilters(es).channels ==> OpenedIn(es, x.network) == {}
  {
    var after := NewFilters(es + {x}).channels;
    var expected := NewFilters(es).channels[x.network := OpenedIn(es, x.network) + {x.channel}];
    assert OpenedNetworks(es + {x}) == OpenedNetworks(es) + {x.network};
    forall n ensures OpenedIn(es + {x}, n) == OpenedIn(es, n) + (if n == x.network then {x.channel} else {}) { }
    assert after.Keys == expected.Keys;
    assert forall n :: n in after.Keys ==> after[n] == expected[n];
  }

  /** All contracts a filter can get events from. */
  function Contracts(f: Filter): set<Address> {
    f.registries + f.networks + f.channels.Keys + (if f.secrets.Some? then {f.secrets.value} else {})
  }

  /** The chain has no event twice and no channel of a node with itself. */
  ghost predicate Plain(chain: seq<ChainEvent>) {
    Once(chain) && forall e :: e in chain && e.ChannelOpened? ==> e.first != e.second
  }

  /**
   The list holds what the filter selects, creators stand before dependents that
   are not in an earlier block, and nothing is listed twice.
   */
  ghost predicate IsRoundList(chain: seq<ChainEvent>, f: Filter, node: Address, after: nat, to: nat,
                              es: seq<ChainEvent>)
  {
    && Elements(es) == Selected(chain, f, node, after, to)
    && (forall c, e :: c in es && Depends(c, e) && c.block <= e.block ==> Before(es, c, e))
    && (Plain(chain) ==> Once(es))
  }

  lemma RoundHasSelected(chain: seq<ChainEvent>, f: Filter, node: Address, after: nat, to: nat, qs: seq<Query>)
    requires IsQueryList(f, node, qs)
    ensures Elements(SortEvents(Gather(chain, qs, after, to))) == Selected(chain, f, node, after, to)
  {
    var es := Gather(chain, qs, after, to);
    SortSorts(es);
    forall e ensures e in SortEvents(es) <==> e in Selected(chain, f, node, after, to) {
      QueriesSelect(f, node, qs, e);
      assert e in SortEvents(es) <==> e in multiset(SortEvents(es));
      assert e in es <==> e in multiset(es);
    }
  }

  lemma RoundIsOnce(chain: seq<ChainEvent>, f: Filter, node: Address, after: nat, to: nat, qs: seq<Query>)
    requires IsQueryList(f, node, qs) && Plain(chain)
    ensures Once(SortEvents(Gather(chain, qs, after, to)))
  {
    var es := Gather(chain, qs, after, to);
    SortSorts(es);
    forall e ensures multiset(es)[e] <= 1 {
      if e in es {
        QueriesMatchOnce(f, node, qs, e);
        GatherOnce(chain, qs, after, to, e);
      } else {
        assert e !in multiset(es);
      }
    }
  }

  lemma RoundKeepsOrder(chain: seq<ChainEvent>, f: Filter, node: Address, after: nat, to: nat, qs: seq<Query>,
                        c: ChainEvent, e: ChainEvent)
    requires IsQueryList(f, node, qs) && Depends(c, e) && c.block <= e.block
    requires c in SortEvents(Gather(chain, qs, after, to))
    ensures Before(SortEvents(Gather(chain, qs, after, to)), c, e)
  {
    var es := Gather(chain, qs, after, to);
    SortSorts(es);
    assert c in multiset(SortEvents(es));
    ListIsOrdered(f, node, qs);
    GatherKeepsRank(chain, qs, after, to, c, e);
    SortBefore(es, c, e);
  }

  lemma RoundListIsSorted(chain: seq<ChainEvent>, f: Filter, node: Address, after: nat, to: nat, qs: seq<Query>)
    requires IsQueryList(f, node, qs)
    ensures IsRoundList(chain, f, node, after, to, SortEvents(Gather(chain, qs, after, to)))
  {
    var es := SortEvents(Gather(chain, qs, after, to));
    RoundHasSelected(chain, f, node, after, to, qs);
    if Plain(chain) { RoundIsOnce(chain, f, node, after, to, qs); }
    forall c, e | c in es && Depends(c, e) && c.block <= e.block ensures Before(es, c, e) {
      RoundKeepsOrder(chain, f, node, after, to, qs, c, e);
    }
  }

  /** The lists of the rounds, one after the other. */
  function Flatten(parts: seq<seq<ChainEvent>>): seq<ChainEvent> {
    if parts == [] then [] else Flatten(parts[..|parts| - 1]) + parts[|parts| - 1]
  }

  ghost predicate AreRounds(chain: seq<ChainEvent>, f: Filter, node: Address, after: nat, to: nat,
                            parts: seq<seq<ChainEvent>>)
  {
    forall j :: 0 <= j < |parts| ==>
      IsRoundList(chain, RoundFilter(chain, f, node, after, to, j), node, after, to, parts[j])
  }

  lemma {:induction false} PartsFind(chain: seq<ChainEvent>, f: Filter, node: Address, after: nat, to: nat,
                                     parts: seq<seq<ChainEvent>>)
    requires AreRounds(chain, f, node, after, to, parts)
    ensures Elements(Flatten(parts)) == Found(chain, f, node, after, to, |parts|)
    decreases |parts|
  {
    if parts != [] {
      var n := |parts| - 1;
      PartsFind(chain, f, node, after, to, parts[..n]);
      assert Elements(Flatten(parts)) == Elements(Flatten(parts[..n])) + Elements(parts[n]);
    }
  }

  /* ---- creators come first ---- */

  lemma {:induction false} FlattenKeepsFirst(parts: seq<seq<ChainEvent>>, j: nat, c: ChainEvent, e: ChainEvent)
    requires j < |parts| && c in parts[j] && Before(parts[j], c, e)
    requires forall i :: 0 <= i < j ==> e !in parts[i]
    ensures Before(Flatten(parts), c, e)
    ensures c in Flatten(parts)
    decreases |parts|
  {
    var n := |parts| - 1;
    if j < n {
      FlattenKeepsFirst(parts[..n], j, c, e);
      BeforeConcat(Flatten(parts[..n]), parts[n], c, e);
    } else {
      NotInFlatten(parts[..n], e);
      BeforeConcat(Flatten(parts[..n]), parts[n], c, e);
    }
  }

  lemma {:induction false} NotInFlatten(parts: seq<seq<ChainEvent>>, e: ChainEvent)
    requires forall i :: 0 <= i < |parts| ==> e !in parts[i]
    ensures e !in Flatten(parts)
    decreases |parts|
  {
    if parts != [] { NotInFlatten(parts[..|parts| - 1], e); }
  }

  /** Every network that has channels in the filter is in the filter itself. */
  ghost predicate ChannelsOfKnownNetworks(f: Filter) { f.channels.Keys <= f.networks }

  /** Each event that created a network or channel stands before all events of that network or channel. */
  ghost predicate CreatorsFirst(es: seq<ChainEvent>) {
    forall c, e :: c in es && Depends(c, e) ==> Before(es, c, e)
  }

  lemma CreatorInFirstRound(chain: seq<ChainEvent>, f: Filter, node: Address, after: nat, to: nat,
                            parts: seq<seq<ChainEvent>>, c: ChainEvent, e: ChainEvent)
    requires WellFormed(chain) && AreRounds(chain, f, node, after, to, parts) && |parts| > 0 && Depends(c, e)
    requires e in Flatten(parts)
    requires c in Selected(chain, f, node, after, to)
    ensures Before(Flatten(parts), c, e)
  {
    PartsFind(chain, f, node, after, to, parts);
    FoundInChain(chain, f, node, after, to, |parts|);
    assert IsRoundList(chain, RoundFilter(chain, f, node, after, to, 0), node, after, to, parts[0]);
    assert c in Elements(parts[0]);
    assert e in Elements(Flatten(parts));
    FlattenKeepsFirst(parts, 0, c, e);
  }

  lemma {:induction false} FoundInChain(chain: seq<ChainEvent>, f: Filter, node: Address, after: nat, to: nat, k: nat)
    ensures forall e :: e in Found(chain, f, node, after, to, k) ==> e in chain && after < e.block <= to
  {
    if k > 0 { FoundInChain(chain, f, node, after, to, k - 1); }
  }

  lemma {:induction false} RoundOf(chain: seq<ChainEvent>, f: Filter, node: Address, after: nat, to: nat, k: nat,
                                   c: ChainEvent)
    returns (j: nat)
    requires c in Found(chain, f, node, after, to, k)
    ensures j < k && c in Selected(chain, RoundFilter(chain, f, node, after, to, j), node, after, to)
    decreases k
  {
    j := k - 1;
    if c !in Selected(chain, RoundFilter(chain, f, node, after, to, j), node, after, to) {
      j := RoundOf(chain, f, node, after, to, k - 1, c);
    }
  }

  /** A creator is found in the first round, or it is an opening found in the second. */
  lemma CreatorRound(chain: seq<ChainEvent>, f: Filter, node: Address, after: nat, to: nat, k: nat, c: ChainEvent)
    requires c in Found(chain, f, node, after, to, k) && (c.NetworkCreated? || c.ChannelOpened?)
    ensures c in Selected(chain, f, node, after, to) ||
      (k > 1 && c.ChannelOpened? && c in Selected(chain, RoundFilter(chain, f, node, after, to, 1), node, after, to))
  {
    var j := RoundOf(chain, f, node, after, to, k, c);
    if j > 0 { RoundsNarrow(chain, f, node, after, to, j); }
  }

  lemma CreatorInSecondRound(chain: seq<ChainEvent>, f: Filter, node: Address, after: nat, to: nat,
                             parts: seq<seq<ChainEvent>>, c: ChainEvent, e: ChainEvent)
    requires WellFormed(chain) && AreRounds(chain, f, node, after, to, parts) && |parts| > 1
    requires ChannelsOfKnownNetworks(f)
    requires c.ChannelOpened? && Depends(c, e) && e in Flatten(parts)
    requires c !in Selected(chain, f, node, after, to)
    requires c in Selected(chain, RoundFilter(chain, f, node, after, to, 1), node, after, to)
    ensures Before(Flatten(parts), c, e)
  {
    PartsFind(chain, f, node, after, to, parts);
    FoundInChain(chain, f, node, after, to, |parts|);
    assert e in Elements(Flatten(parts));
    assert IsRoundList(chain, RoundFilter(chain, f, node, after, to, 0), node, after, to, parts[0]);
    assert IsRoundList(chain, RoundFilter(chain, f, node, after, to, 1), node, after, to, parts[1]);
    assert c in Elements(parts[1]);
    assert c.network !in f.networks;
    assert e !in Elements(parts[0]);
    FlattenKeepsFirst(parts, 1, c, e);
  }

  /** The result of a batch need not be sorted by block, but every creator stands before its dependents. */
  lemma CreatorsComeFirst(chain: seq<ChainEvent>, f: Filter, node: Address, after: nat, to: nat,
                          parts: seq<seq<ChainEvent>>)
    requires WellFormed(chain) && AreRounds(chain, f, node, after, to, parts) && ChannelsOfKnownNetworks(f)
    ensures CreatorsFirst(Flatten(parts))
  {
    var es := Flatten(parts);
    PartsFind(chain, f, node, after, to, parts);
    forall c, e | c in es && Depends(c, e) ensures Before(es, c, e) {
      if e in es {
        assert c in Elements(es);
        CreatorRound(chain, f, node, after, to, |parts|, c);
        if c in Selected(chain, f, node, after, to) {
          CreatorInFirstRound(chain, f, node, after, to, parts, c, e);
        } else {
          CreatorInSecondRound(chain, f, node, after, to, parts, c, e);
        }
      }
    }
  }

  /** A network in block 1, a channel of it in block 2 and a channel of a network known before in block 3. */
  function LateNetwork(registry: Address, known: Address, late: Address, node: Address,
                       partner: Address): seq<ChainEvent>
  {
    [NetworkCreated(1, 0, registry, late),
     ChannelOpened(2, 0, late, 1, node, partner),
     ChannelOpened(3, 0, known, 1, node, partner)]
  }

  lemma FlattenThree(a: seq<ChainEvent>, b: seq<ChainEvent>, c: seq<ChainEvent>)
    ensures Flatten([a, b, c]) == a + b + c
  {
    assert [a, b, c][..2] == [a, b] && [a, b][..1] == [a] && [a][..0] == [];
    assert Flatten([a]) == a && Flatten([a, b]) == a + b;
  }

  function LateFilter(registry: Address, known: Address): Filter { Filter({registry}, {known}, map[], None, true) }

  lemma LateFirstRound(registry: Address, known: Address, late: Address, node: Address, partner: Address)
    requires known != late
    ensures var chain := LateNetwork(registry, known, late, node, partner);
      && IsRoundList(chain, LateFilter(registry, known), node, 0, 3, [chain[0], chain[2]])
      && RoundFilter(chain, LateFilter(registry, known), node, 0, 3, 1) == NewFilters({chain[0], chain[2]})
  {
    var chain, f := LateNetwork(registry, known, late, node, partner), LateFilter(registry, known);
    assert Elements([chain[0], chain[2]]) == {chain[0], chain[2]};
    assert {chain[0], chain[2]} == Selected(chain, f, node, 0, 3);
    assert RoundFilter(chain, f, node, 0, 3, 0) == f;
  }

  lemma LateSecondRound(registry: Address, known: Address, late: Address, node: Address, partner: Address)
    requires known != late
    ensures var chain := LateNetwork(registry, known, late, node, partner);
      && IsRoundList(chain, NewFilters({chain[0], chain[2]}), node, 0, 3, [chain[1]])
      && RoundFilter(chain, LateFilter(registry, known), node, 0, 3, 2) == NewFilters({chain[1]})
  {
    var chain := LateNetwork(registry, known, late, node, partner);
    var g := NewFilters({chain[0], chain[2]});
    assert g.networks == {late} && g.registries == {};
    assert Elements([chain[1]]) == {chain[1]} == Selected(chain, g, node, 0, 3);
    LateFirstRound(registry, known, late, node, partner);
    assert RoundFilter(chain, LateFilter(registry, known), node, 0, 3, 1) == g;
  }

  lemma LateThirdRound(registry: Address, known: Address, late: Address, node: Address, partner: Address)
    ensures var chain := LateNetwork(registry, known, late, node, partner);
      IsRoundList(chain, NewFilters({chain[1]}), node, 0, 3, [])
  {
    var chain := LateNetwork(registry, known, late, node, partner);
    var g := NewFilters({chain[1]});
    assert g.networks == {} && g.registries == {};
    assert Elements([]) == Selected(chain, g, node, 0, 3);
  }

  /**
   The result of a batch is not always sorted by block: the channel of the new
   network comes with the second round.
   */
  lemma BatchNeedNotBeSorted(registry: Address, known: Address, late: Address, node: Address, partner: Address)
    requires known != late
    ensures var chain := LateNetwork(registry, known, late, node, partner);
      var parts := [[chain[0], chain[2]], [chain[1]], []];
      && WellFormed(chain) && ChannelsOfKnownNetworks(LateFilter(registry, known))
      && AreRounds(chain, LateFilter(registry, known), node, 0, 3, parts)
      && !Active(RoundFilter(chain, LateFilter(registry, known), node, 0, 3, |parts|))
      && Flatten(parts) == [chain[0], chain[2], chain[1]] && chain[2].block > chain[1].block
  {
    var chain := LateNetwork(registry, known, late, node, partner);
    var parts := [[chain[0], chain[2]], [chain[1]], []];
    LateFirstRound(registry, known, late, node, partner);
    LateSecondRound(registry, known, late, node, partner);
    LateThirdRound(registry, known, late, node, partner);
    RoundsNarrow(chain, LateFilter(registry, known), node, 0, 3, 3);
    FlattenThree(parts[0], parts[1], parts[2]);
  }

  /* ---- events that are handed on twice ---- */

  /** No event is in two of the lists. */
  ghost predicate PartsApart(parts: seq<seq<ChainEvent>>) {
    forall i, j :: 0 <= i < j < |parts| ==> Elements(parts[i]) !! Elements(parts[j])
  }

  lemma OnceConcat(a: seq<ChainEvent>, b: seq<ChainEvent>)
    ensures Once(a + b) <==> Once(a) && Once(b) && Elements(a) !! Elements(b)
  {
    assert multiset(a + b) == multiset(a) + multiset(b);
    if Once(a + b) {
      forall e ensures multiset(a)[e] <= 1 && multiset(b)[e] <= 1 && !(e in a && e in b) {
        assert multiset(a + b)[e] <= 1;
        assert (e in a <==> e in multiset(a)) && (e in b <==> e in multiset(b));
      }
    } else if Once(a) && Once(b) && Elements(a) !! Elements(b) {
      forall e ensures multiset(a + b)[e] <= 1 {
        assert !(e in Elements(a) && e in Elements(b));
        assert (e in a <==> e in multiset(a)) && (e in b <==> e in multiset(b));
      }
    }
  }

  lemma {:induction false} ElementsOfParts(parts: seq<seq<ChainEvent>>, e: ChainEvent)
    ensures e in Flatten(parts) <==> exists i :: 0 <= i < |parts| && e in Elements(parts[i])
    decreases |parts|
  {
    if parts != [] { ElementsOfParts(parts[..|parts| - 1], e); }
  }

  lemma LastPartApart(parts: seq<seq<ChainEvent>>)
    requires parts != []
    ensures var n := |parts| - 1;
      PartsApart(parts) <==> PartsApart(parts[..n]) && Elements(Flatten(parts[..n])) !! Elements(parts[n])
  {
    var n := |parts| - 1;
    forall e ensures e in Flatten(parts[..n]) <==> exists i :: 0 <= i < n && e in Elements(parts[i]) {
      ElementsOfParts(parts[..n], e);
    }
    if PartsApart(parts[..n]) && Elements(Flatten(parts[..n])) !! Elements(parts[n]) {
      forall i, j | 0 <= i < j < |parts| ensures Elements(parts[i]) !! Elements(parts[j]) {
        if j < n { assert parts[i] == parts[..n][i] && parts[j] == parts[..n][j]; }
      }
    }
  }

  lemma {:induction false} FlattenOnceIff(parts: seq<seq<ChainEvent>>)
    requires forall j :: 0 <= j < |parts| ==> Once(parts[j])
    ensures Once(Flatten(parts)) <==> PartsApart(parts)
    decreases |parts|
  {
    if parts != [] {
      var n := |parts| - 1;
      FlattenOnceIff(parts[..n]);
      OnceConcat(Flatten(parts[..n]), parts[n]);
      LastPartApart(parts);
    }
  }

  lemma InactiveNext(chain: seq<ChainEvent>, f: Filter, node: Address, after: nat, to: nat, m: nat)
    requires !Active(RoundFilter(chain, f, node, after, to, m))
    ensures !Active(RoundFilter(chain, f, node, after, to, m + 1))
  {
    InactiveRound(chain, f, node, after, to, m);
    UnionWithNothing(f);
  }

  lemma InactiveRounds(chain: seq<ChainEvent>, f: Filter, node: Address, after: nat, to: nat, i: nat, j: nat)
    requires i <= j && !Active(RoundFilter(chain, f, node, after, to, i))
    ensures InRound(chain, f, node, after, to, j) == {}
  {
    for m := i to j
      invariant !Active(RoundFilter(chain, f, node, after, to, m))
    {
      InactiveNext(chain, f, node, after, to, m);
    }
    InactiveSelectsNothing(chain, RoundFilter(chain, f, node, after, to, j), node, after, to);
  }

  lemma PartsAreRounds(chain: seq<ChainEvent>, f: Filter, node: Address, after: nat, to: nat,
                       parts: seq<seq<ChainEvent>>)
    requires AreRounds(chain, f, node, after, to, parts) && |parts| <= MAX_ROUNDS
    requires !Active(RoundFilter(chain, f, node, after, to, |parts|))
    ensures PartsApart(parts) <==> RoundsApart(chain, f, node, after, to)
  {
    forall j | 0 <= j < |parts| ensures Elements(parts[j]) == InRound(chain, f, node, after, to, j) {
      assert IsRoundList(chain, RoundFilter(chain, f, node, after, to, j), node, after, to, parts[j]);
    }
    forall j: nat | |parts| <= j < MAX_ROUNDS ensures InRound(chain, f, node, after, to, j) == {} {
      InactiveRounds(chain, f, node, after, to, |parts|, j);
    }
  }

  /** The result of a batch has an event twice exactly when the filter is ahead of what the batch creates. */
  lemma ResultIsOnceIff(chain: seq<ChainEvent>, f: Filter, node: Address, after: nat, to: nat,
                        parts: seq<seq<ChainEvent>>)
    requires AreRounds(chain, f, node, after, to, parts) && |parts| <= MAX_ROUNDS && Plain(chain)
    requires !Active(RoundFilter(chain, f, node, after, to, |parts|))
    ensures Once(Flatten(parts)) <==> !Repeats(chain, f, node, after, to)
  {
    forall j | 0 <= j < |parts| ensures Once(parts[j]) {
      assert IsRoundList(chain, RoundFilter(chain, f, node, after, to, j), node, after, to, parts[j]);
    }
    FlattenOnceIff(parts);
    PartsAreRounds(chain, f, node, after, to, parts);
    RoundsApartIff(chain, f, node, after, to);
  }

  /* ---- the abi of every contract is known ---- */

  lemma OriginKnown(chain: seq<ChainEvent>, f: Filter, node: Address, after: nat, to: nat, e: ChainEvent)
    requires e in Selected(chain, f, node, after, to)
    ensures Origin(e) in Contracts(f)
  {
  }

  /** The contracts that `abi_of_contract_address` lists; it leaves the keys of the channels out. */
  function AbiContracts(f: Filter): set<Address> {
    f.registries + f.networks + (if f.secrets.Some? then {f.secrets.value} else {})
  }

  lemma NewContractsKnown(chain: seq<ChainEvent>, f: Filter, node: Address, after: nat, to: nat, abi: set<Address>)
    requires Contracts(f) <= abi
    ensures var g := NewFilters(Selected(chain, f, node, after, to)); Contracts(g) <= abi + AbiContracts(g)
  {
    var es := Selected(chain, f, node, after, to);
    forall n | n in OpenedNetworks(es) ensures n in abi {
      var e :| e in es && e.ChannelOpened? && e.network == n;
      OriginKnown(chain, f, node, after, to, e);
    }
  }

  datatype PollResult =
    | TargetInPast
    | TooSmall
    | TimedOut
    | Polled(block: nat, events: seq<ChainEvent>)

  class BlockchainEvents {
    const node: Address
    var eventFilter: Filter
    var abi: set<Address>
    var last: nat
    const adjuster: BF.BlockBatchSizeAdjuster

    constructor (node: Address, eventFilter: Filter, last: nat, config: BF.Config)
      requires BF.ValidConfig(config) && ChannelsOfKnownNetworks(eventFilter)
      ensures Valid() && fresh(adjuster) && adjuster.scale == 0 && adjuster.config == config
      ensures this.node == node && this.eventFilter == eventFilter && this.last == last
    {
      this.node := node;
      this.eventFilter := eventFilter;
      this.last := last;
      abi := AbiContracts(eventFilter);
      adjuster := new BF.BlockBatchSizeAdjuster(config);
    }

    ghost predicate Valid()
      reads this, adjuster
    {
      && BF.ValidConfig(adjuster.config) && ChannelsOfKnownNetworks(eventFilter) && Contracts(eventFilter) <= abi
    }

    function Fetcher(): BF.Fetcher
      reads this, adjuster
    {
      BF.Fetcher(last, adjuster.scale)
    }

    /** One round of `_query_and_track`: all requests of a filter, decoded and sorted; `None` for a timeout. */
    method QueryRound(chain: seq<ChainEvent>, f: Filter, after: nat, to: nat, timeoutAt: Option<nat>, sent: nat)
      returns (decoded: Option<seq<ChainEvent>>, requests: nat)
      requires Contracts(f) <= abi
      ensures decoded.Some? ==> IsRoundList(chain, f, node, after, to, decoded.value)
    {
      requests := sent;
      var qs := ToWeb3Filters(f, node);
      var found: seq<ChainEvent> := [];
      for j := 0 to |qs|
        invariant found == Gather(chain, qs[..j], after, to)
      {
        if timeoutAt == Some(requests) { return None, requests; }
        assert qs[..j + 1][..j] == qs[..j];
        found := found + GetLogs(chain, qs[j], after, to);
        requests := requests + 1;
      }
      assert qs[..|qs|] == qs;
      RoundListIsSorted(chain, f, node, after, to, qs);
      var es := SortEvents(found);
      // Looking up the abi of an event's contract never fails.
      forall e | e in es ensures Origin(e) in abi {
        assert e in Elements(es);
        OriginKnown(chain, f, node, after, to, e);
      }
      decoded := Some(es);
    }

    /** Adds the filters that follow from the events of round `i`; `None` when there were no events. */
    method Track(chain: seq<ChainEvent>, after: nat, to: nat, decoded: seq<ChainEvent>, ghost f: Filter, ghost i: nat)
      returns (next: Option<Filter>)
      requires Valid() && ChannelsOfKnownNetworks(f) && eventFilter == Grown(chain, f, node, after, to, i)
      requires Elements(decoded) == Selected(chain, RoundFilter(chain, f, node, after, to, i), node, after, to)
      requires Contracts(RoundFilter(chain, f, node, after, to, i)) <= abi
      modifies this`eventFilter, this`abi
      ensures Valid() && eventFilter == Grown(chain, f, node, after, to, i + 1)
      ensures next.Some? ==> next.value == RoundFilter(chain, f, node, after, to, i + 1) && Contracts(next.value) <= abi
      ensures next.None? ==> !Active(RoundFilter(chain, f, node, after, to, i + 1))
    {
      NextRound(chain, f, node, after, to, i, decoded, abi);
      if decoded == [] { return None; }
      var found := NewFiltersFromEvents(decoded);
      eventFilter := Union(eventFilter, found);
      abi := abi + AbiContracts(found);
      next := Some(found);
    }

    /** One pass of the loop of `_query_and_track`, after the rounds `parts`. */
    method QueryNext(chain: seq<ChainEvent>, after: nat, to: nat, current: Filter, timeoutAt: Option<nat>, sent: nat,
                     ghost f: Filter, ghost parts: seq<seq<ChainEvent>>)
      returns (decoded: Option<seq<ChainEvent>>, next: Option<Filter>, requests: nat)
      requires Valid() && ChannelsOfKnownNetworks(f) && Contracts(current) <= abi
      requires current == RoundFilter(chain, f, node, after, to, |parts|)
      requires eventFilter == Grown(chain, f, node, after, to, |parts|) && AreRounds(chain, f, node, after, to, parts)
      modifies this`eventFilter, this`abi
      ensures Valid() && (decoded.None? ==> eventFilter == old(eventFilter))
      ensures decoded.Some? ==>
        && eventFilter == Grown(chain, f, node, after, to, |parts| + 1)
        && AreRounds(chain, f, node, after, to, parts + [decoded.value])
        && Flatten(parts + [decoded.value]) == Flatten(parts) + decoded.value
      ensures decoded.Some? && next.Some? ==>
        next.value == RoundFilter(chain, f, node, after, to, |parts| + 1) && Contracts(next.value) <= abi
      ensures decoded.Some? && next.None? ==> !Active(RoundFilter(chain, f, node, after, to, |parts| + 1))
    {
      decoded, requests := QueryRound(chain, current, after, to, timeoutAt, sent);
      next := None;
      if decoded.Some? {
        AppendRound(chain, f, node, after, to, parts, decoded.value);
        next := Track(chain, after, to, decoded.value, f, |parts|);
      }
    }

    /** The loop of `_query_and_track`; `parts` are the rounds that were finished. */
    method QueryRounds(chain: seq<ChainEvent>, after: nat, to: nat, timeoutAt: Option<nat>)
      returns (result: Option<seq<ChainEvent>>, ghost parts: seq<seq<ChainEvent>>)
      requires Valid()
      modifies this`eventFilter, this`abi
      ensures Valid() && |parts| <= MAX_ROUNDS
      ensures eventFilter == Grown(chain, old(eventFilter), node, after, to, |parts|)
      ensures result.Some? ==>
        && result.value == Flatten(parts) && AreRounds(chain, old(eventFilter), node, after, to, parts)
        && !Active(RoundFilter(chain, old(eventFilter), node, after, to, |parts|))
    {
      ghost var f := eventFilter;
      var es: seq<ChainEvent> := [];
      var current := Some(eventFilter);
      var requests := 0;
      parts := [];
      while current.Some? && Active(current.value)
        invariant Valid() && |parts| <= MAX_ROUNDS && es == Flatten(parts)
        invariant current.Some? ==>
          current.value == RoundFilter(chain, f, node, after, to, |parts|) && Contracts(current.value) <= abi
        invariant current.None? ==> !Active(RoundFilter(chain, f, node, after, to, |parts|))
        invariant eventFilter == Grown(chain, f, node, after, to, |parts|)
        invariant AreRounds(chain, f, node, after, to, parts)
        decreases MAX_ROUNDS - |parts|
      {
        AtMostThreeRounds(chain, f, node, after, to, |parts|);
        var decoded;
        decoded, current, requests := QueryNext(chain, after, to, current.value, timeoutAt, requests, f, parts);
        if decoded.None? { result := None; return; }
        parts := parts + [decoded.value];
        es := es + decoded.value;
      }
      result := Some(es);
    }

    /**
     `_query_and_track`.  Request number `timeoutAt` of the batch times out, if
     there is one.  The filter keeps what was found before a timeout.
     */
    method QueryAndTrack(chain: seq<ChainEvent>, after: nat, to: nat, timeoutAt: Option<nat>)
      returns (result: Option<seq<ChainEvent>>, ghost rounds: nat)
      requires Valid()
      modifies this`eventFilter, this`abi
      ensures Valid()
      ensures rounds <= MAX_ROUNDS && eventFilter == Grown(chain, old(eventFilter), node, after, to, rounds)
      ensures result.Some? ==> rounds == MAX_ROUNDS && IsBatch(chain, old(eventFilter), node, after, to, result.value)
    {
      ghost var parts;
      result, parts := QueryRounds(chain, after, to, timeoutAt);
      rounds := |parts|;
      if result.Some? {
        LastRound(chain, old(eventFilter), node, after, to, parts);
        rounds := MAX_ROUNDS;
      }
    }

    /** Adapts the batch size to the duration of the requests; fails at the minimum. */
    method AdjustSize(target: nat, speed: BF.Speed) returns (ok: bool)
      requires Valid() && target > last
      modifies adjuster
      ensures var scale := BF.Adjusted(adjuster.config, old(Fetcher()), target, speed);
        if ok then scale == Some(adjuster.scale) else scale == None
      ensures speed.Fast? ==> ok && adjuster.Size() >= old(adjuster.Size())
      ensures speed.Fast? ==>
        var before, after :=
          BF.RawSize(adjuster.config, old(adjuster.scale)), BF.RawSize(adjuster.config, adjuster.scale);
        if target - (last + 1) > old(adjuster.Size()) && old(adjuster.Size()) < adjuster.config.max then
          2 * before <= after <= 2 * before + 1
        else after == before
      ensures speed.Medium? ==> ok && adjuster.scale == old(adjuster.scale)
      ensures speed.Slow? ==> (ok <==> old(adjuster.Size()) > adjuster.config.min)
      ensures speed.Slow? && ok ==>
        BF.RawSize(adjuster.config, adjuster.scale) == BF.RawSize(adjuster.config, old(adjuster.scale)) / 2
    {
      ok := true;
      if speed.Fast? {
        if target - (last + 1) > adjuster.Size() { adjuster.Increase(); }
      } else if speed.Slow? {
        ok := adjuster.Decrease();
      }
    }

    /**
     `fetch_logs_in_batch`.  `speed` is how long the slowest request takes if
     none times out; `reply` is what the batch turned out to be.
     */
    method FetchLogsInBatch(chain: seq<ChainEvent>, target: nat, timeoutAt: Option<nat>, speed: BF.Speed)
      returns (r: PollResult, ghost reply: BF.Reply, ghost rounds: nat)
      requires Valid()
      modifies this, adjuster
      ensures Valid() && rounds <= MAX_ROUNDS
      ensures target > old(last) ==>
        var to := BF.ToBlock(adjuster.config, old(Fetcher()), target);
        eventFilter == Grown(chain, old(eventFilter), node, old(last), to, rounds)
      ensures target <= old(last) ==> eventFilter == old(eventFilter)
      ensures Polls(r, Fetcher(), BF.FetchBatch(adjuster.config, old(Fetcher()), target, reply))
      ensures r.Polled? ==>
        && IsBatch(chain, old(eventFilter), node, old(last), r.block, r.events)
        && eventFilter == Grown(chain, old(eventFilter), node, old(last), r.block, MAX_ROUNDS)
      ensures !r.Polled? ==> last == old(last)
    {
      reply, rounds := BF.TimedOut, 0;
      if target <= last { r := TargetInPast; return; }
      var from := last + 1;
      var to := Min(from + adjuster.Size(), target);
      assert to == BF.ToBlock(adjuster.config, old(Fetcher()), target);
      var result;
      result, rounds := QueryAndTrack(chain, last, to, timeoutAt);
      assert eventFilter == Grown(chain, old(eventFilter), node, old(last), to, rounds);
      assert result.Some? ==> IsBatch(chain, old(eventFilter), node, old(last), to, result.value);
      var ok;
      if result.None? {
        ok := adjuster.Decrease();
        r := if ok then TimedOut else TooSmall;
        return;
      }
      reply := BF.Answered(speed);
      ok := AdjustSize(target, speed);
      if !ok { r := TooSmall; return; }
      last := to;
      r := Polled(to, result.value);
    }
  }

  /** The result of a call is the one of the fetching rules, leaving the fetcher `now`. */
  ghost predicate Polls(r: PollResult, now: BF.Fetcher, f: BF.Fetch) {
    match f
    case TargetInPast => r.TargetInPast?
    case TooSmall => r.TooSmall?
    case Retry(next) => r.TimedOut? && now == next
    case Polled(next, after, to) => r.Polled? && r.block == to && now == next
  }

  /**
   The events of a batch: those of the three rounds, creators first, with an event
   twice exactly if the filter is ahead of what the batch creates.
   */
  ghost predicate IsBatch(chain: seq<ChainEvent>, f: Filter, node: Address, after: nat, to: nat, es: seq<ChainEvent>) {
    && Elements(es) == Found(chain, f, node, after, to, MAX_ROUNDS)
    && (WellFormed(chain) ==> CreatorsFirst(es))
    && (Plain(chain) ==> (Once(es) <==> !Repeats(chain, f, node, after, to)))
  }

  lemma AppendRound(chain: seq<ChainEvent>, f: Filter, node: Address, after: nat, to: nat, parts: seq<seq<ChainEvent>>,
                    es: seq<ChainEvent>)
    requires AreRounds(chain, f, node, after, to, parts)
    requires IsRoundList(chain, RoundFilter(chain, f, node, after, to, |parts|), node, after, to, es)
    ensures AreRounds(chain, f, node, after, to, parts + [es]) && Flatten(parts + [es]) == Flatten(parts) + es
  {
    assert (parts + [es])[..|parts|] == parts;
  }

  lemma LastRound(chain: seq<ChainEvent>, f: Filter, node: Address, after: nat, to: nat, parts: seq<seq<ChainEvent>>)
    requires AreRounds(chain, f, node, after, to, parts) && ChannelsOfKnownNetworks(f) && |parts| <= MAX_ROUNDS
    requires !Active(RoundFilter(chain, f, node, after, to, |parts|))
    ensures Grown(chain, f, node, after, to, |parts|) == Grown(chain, f, node, after, to, MAX_ROUNDS)
    ensures IsBatch(chain, f, node, after, to, Flatten(parts))
  {
    InactiveStops(chain, f, node, after, to, |parts|, MAX_ROUNDS);
    PartsFind(chain, f, node, after, to, parts);
    if WellFormed(chain) { CreatorsComeFirst(chain, f, node, after, to, parts); }
    if Plain(chain) { ResultIsOnceIff(chain, f, node, after, to, parts); }
  }

  lemma UnionContracts(f: Filter, g: Filter)
    requires g.secrets.None?
    ensures Contracts(Union(f, g)) == Contracts(f) + Contracts(g)
  {
  }

  /** What a round does to the filter, to the contracts it names and to the next round. */
  lemma NextRound(chain: seq<ChainEvent>, f: Filter, node: Address, after: nat, to: nat, i: nat, es: seq<ChainEvent>,
                  abi: set<Address>)
    requires ChannelsOfKnownNetworks(f)
    requires Elements(es) == Selected(chain, RoundFilter(chain, f, node, after, to, i), node, after, to)
    requires Contracts(RoundFilter(chain, f, node, after, to, i)) <= abi
    requires Contracts(Grown(chain, f, node, after, to, i)) <= abi
    ensures var next := NewFilters(Elements(es));
      && next == RoundFilter(chain, f, node, after, to, i + 1)
      && Union(Grown(chain, f, node, after, to, i), next) == Grown(chain, f, node, after, to, i + 1)
      && Contracts(next) <= abi + AbiContracts(next)
      && Contracts(Grown(chain, f, node, after, to, i + 1)) <= abi + AbiContracts(next)
      && ChannelsOfKnownNetworks(Grown(chain, f, node, after, to, i + 1))
      && (es == [] ==> !Active(next) && Grown(chain, f, node, after, to, i + 1) == Grown(chain, f, node, after, to, i))
  {
    var current := RoundFilter(chain, f, node, after, to, i);
    NewContractsKnown(chain, current, node, after, to, abi);
    UnionKeepsKnown(chain, f, node, after, to, i);
    UnionContracts(Grown(chain, f, node, after, to, i), NewFilters(Elements(es)));
    if es == [] {
      assert Elements(es) == {};
      UnionWithNothing(Grown(chain, f, node, after, to, i));
    }
  }

  lemma {:induction false} UnionKeepsKnown(chain: seq<ChainEvent>, f: Filter, node: Address, after: nat, to: nat,
                                           k: nat)
    requires ChannelsOfKnownNetworks(f)
    ensures ChannelsOfKnownNetworks(Grown(chain, f, node, after, to, k + 1))
    ensures RoundFilter(chain, f, node, after, to, k).networks <= Grown(chain, f, node, after, to, k).networks
  {
    GrownHolds(chain, f, node, after, to, k, k);
    if k > 0 { UnionKeepsKnown(chain, f, node, after, to, k - 1); }
    var current := RoundFilter(chain, f, node, after, to, k);
    var next := NewFilters(Selected(chain, current, node, after, to));
    forall n | n in next.channels ensures n in current.networks {
      var e :| e in Selected(chain, current, node, after, to) && e.ChannelOpened? && e.network == n;
    }
  }
}
