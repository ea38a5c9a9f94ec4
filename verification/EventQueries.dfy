/**
 The queries that a filter is turned into, the logs they return and the order in
 which a batch hands its events on.
 */
module EventQueries {
  import opened EventFilters

  /** The parameters of one `eth_getLogs` request, without the block range. */
  datatype Query =
    | OfRegistries(registries: set<Address>)
    | OfSecrets(registry: Address)
    | OpenedAsFirst(networks: set<Address>, node: Address)
    | OpenedAsSecond(networks: set<Address>, node: Address)
    | OfChannels(network: Address, channels: set<nat>)

  predicate Matches(q: Query, e: ChainEvent) {
    match q
    case OfRegistries(registries) => e.NetworkCreated? && e.registry in registries
    case OfSecrets(registry) => e.SecretRevealed? && e.registry == registry
    case OpenedAsFirst(networks, node) => e.ChannelOpened? && e.network in networks && e.first == node
    case OpenedAsSecond(networks, node) => e.ChannelOpened? && e.network in networks && e.second == node
    case OfChannels(network, channels) =>
      e.ChannelChanged? && e.network == network && e.channel in channels && e.kind != ProofUpdated
  }

  /** The queries that come before those of the channels. */
  function FixedQueries(f: Filter, node: Address): seq<Query> {
    (if f.registries != {} then [OfRegistries(f.registries)] else [])
    + (if f.secrets.Some? && !f.ignoreSecrets then [OfSecrets(f.secrets.value)] else [])
    + (if f.networks != {} then [OpenedAsFirst(f.networks, node), OpenedAsSecond(f.networks, node)] else [])
  }

  /** One query for each of these token networks, in any order. */
  ghost predicate ChannelQueries(f: Filter, networks: set<Address>, qs: seq<Query>) {
    && networks <= f.channels.Keys
    && (forall q :: q in qs ==> q.OfChannels? && q.network in networks && q.channels == f.channels[q.network])
    && (forall tn :: tn in networks ==> OfChannels(tn, f.channels[tn]) in qs)
    && (forall i, j :: 0 <= i < j < |qs| ==> qs[i] != qs[j])
  }

  /** The fixed queries, then one for each token network with channels. */
  ghost predicate IsQueryList(f: Filter, node: Address, qs: seq<Query>) {
    var n := |FixedQueries(f, node)|;
    n <= |qs| && qs[..n] == FixedQueries(f, node) && ChannelQueries(f, f.channels.Keys, qs[n..])
  }

  lemma AddChannelQuery(f: Filter, networks: set<Address>, qs: seq<Query>, tn: Address)
    requires ChannelQueries(f, networks, qs) && tn in f.channels && tn !in networks
    ensures ChannelQueries(f, networks + {tn}, qs + [OfChannels(tn, f.channels[tn])])
  {
  }

  /** The queries for the channels, one token network after the other. */
  method ChannelFilters(f: Filter) returns (qs: seq<Query>)
    ensures ChannelQueries(f, f.channels.Keys, qs)
  {
    qs := [];
    var rest := f.channels.Keys;
    while rest != {}
      invariant rest <= f.channels.Keys && ChannelQueries(f, f.channels.Keys - rest, qs)
      decreases |rest|
    {
      var tn :| tn in rest;
      AddChannelQuery(f, f.channels.Keys - rest, qs, tn);
      assert f.channels.Keys - rest + {tn} == f.channels.Keys - (rest - {tn});
      qs := qs + [OfChannels(tn, f.channels[tn])];
      rest := rest - {tn};
    }
    assert f.channels.Keys - rest == f.channels.Keys;
  }

  /** `to_web3_filters`. */
  method ToWeb3Filters(f: Filter, node: Address) returns (qs: seq<Query>)
    ensures IsQueryList(f, node, qs)
  {
    qs := [];
    if f.registries != {} { qs := qs + [OfRegistries(f.registries)]; }
    if f.secrets.Some? && !f.ignoreSecrets { qs := qs + [OfSecrets(f.secrets.value)]; }
    if f.networks != {} { qs := qs + [OpenedAsFirst(f.networks, node), OpenedAsSecond(f.networks, node)]; }
    assert qs == FixedQueries(f, node);
    var more := ChannelFilters(f);
    assert (qs + more)[|qs|..] == more;
    qs := qs + more;
  }

  lemma SelectedIsQueried(f: Filter, node: Address, qs: seq<Query>, e: ChainEvent)
    requires IsQueryList(f, node, qs) && Selects(f, e, node)
    ensures exists q :: q in qs && Matches(q, e)
  {
    var fixedQs := FixedQueries(f, node);
    assert qs == fixedQs + qs[|fixedQs|..];
    match e
    case NetworkCreated(_, _, _, _) => assert OfRegistries(f.registries) in fixedQs && OfRegistries(f.registries) in qs;
    case SecretRevealed(_, _, r) => assert OfSecrets(r) in fixedQs && OfSecrets(r) in qs;
    case ChannelOpened(_, _, _, _, _, _) =>
      assert OpenedAsFirst(f.networks, node) in fixedQs && OpenedAsFirst(f.networks, node) in qs;
      assert OpenedAsSecond(f.networks, node) in fixedQs && OpenedAsSecond(f.networks, node) in qs;
    case ChannelChanged(_, _, tn, _, _) => assert OfChannels(tn, f.channels[tn]) in qs;
  }

  lemma FixedIsSelected(f: Filter, node: Address, q: Query, e: ChainEvent)
    requires q in FixedQueries(f, node) && Matches(q, e)
    ensures Selects(f, e, node)
  {
  }

  lemma QueriedIsSelected(f: Filter, node: Address, qs: seq<Query>, q: Query, e: ChainEvent)
    requires IsQueryList(f, node, qs) && q in qs && Matches(q, e)
    ensures Selects(f, e, node)
  {
    var fixedQs := FixedQueries(f, node);
    assert qs == fixedQs + qs[|fixedQs|..];
    if q in fixedQs { FixedIsSelected(f, node, q, e); } else { assert q in qs[|fixedQs|..]; }
  }

  /** The queries of a filter together ask for exactly what the filter selects. */
  lemma QueriesSelect(f: Filter, node: Address, qs: seq<Query>, e: ChainEvent)
    requires IsQueryList(f, node, qs)
    ensures (exists q :: q in qs && Matches(q, e)) <==> Selects(f, e, node)
  {
    if Selects(f, e, node) { SelectedIsQueried(f, node, qs, e); }
    if q :| q in qs && Matches(q, e) { QueriedIsSelected(f, node, qs, q, e); }
  }

  /* ---- logs ---- */

  /** The matching logs of the block range, in the order of the chain. */
  function GetLogs(chain: seq<ChainEvent>, q: Query, after: nat, to: nat): (r: seq<ChainEvent>)
    ensures forall e :: e in r <==> e in chain && after < e.block <= to && Matches(q, e)
  {
    if chain == [] then []
    else
      (if after < chain[0].block <= to && Matches(q, chain[0]) then [chain[0]] else [])
      + GetLogs(chain[1..], q, after, to)
  }

  /** The logs of all queries, one after the other. */
  function Gather(chain: seq<ChainEvent>, qs: seq<Query>, after: nat, to: nat): (r: seq<ChainEvent>)
    ensures forall e :: e in r <==> e in chain && after < e.block <= to && exists q :: q in qs && Matches(q, e)
    decreases |qs|
  {
    if qs == [] then [] else Gather(chain, qs[..|qs| - 1], after, to) + GetLogs(chain, qs[|qs| - 1], after, to)
  }

  /* ---- no log twice ---- */

  /** No event comes twice. */
  ghost predicate Once(es: seq<ChainEvent>) { forall e :: multiset(es)[e] <= 1 }

  lemma {:induction false} LogsAtMost(chain: seq<ChainEvent>, q: Query, after: nat, to: nat, e: ChainEvent)
    ensures multiset(GetLogs(chain, q, after, to))[e] <= multiset(chain)[e]
    decreases |chain|
  {
    if chain != [] {
      LogsAtMost(chain[1..], q, after, to, e);
      assert chain == [chain[0]] + chain[1..];
    }
  }

  /** At most one of the queries matches the event. */
  ghost predicate MatchedOnce(qs: seq<Query>, e: ChainEvent) {
    forall i, j :: 0 <= i < j < |qs| ==> !(Matches(qs[i], e) && Matches(qs[j], e))
  }

  lemma {:induction false} GatherOnce(chain: seq<ChainEvent>, qs: seq<Query>, after: nat, to: nat, e: ChainEvent)
    requires Once(chain) && MatchedOnce(qs, e)
    ensures multiset(Gather(chain, qs, after, to))[e] <= 1
    decreases |qs|
  {
    if qs != [] {
      var n := |qs| - 1;
      GatherOnce(chain, qs[..n], after, to, e);
      LogsAtMost(chain, qs[n], after, to, e);
      var front, back := Gather(chain, qs[..n], after, to), GetLogs(chain, qs[n], after, to);
      assert e in front ==> e in multiset(front);
      if e in back {
        assert forall q :: q in qs[..n] ==> !Matches(q, e);
        assert e !in front;
      }
    }
  }

  lemma FixedMatchOnce(f: Filter, node: Address, e: ChainEvent)
    requires e.ChannelOpened? ==> e.first != e.second
    ensures MatchedOnce(FixedQueries(f, node), e)
  {
  }

  lemma ChannelQueryMatches(f: Filter, node: Address, qs: seq<Query>, i: nat, e: ChainEvent)
    requires IsQueryList(f, node, qs) && |FixedQueries(f, node)| <= i < |qs| && Matches(qs[i], e)
    ensures e.ChannelChanged? && e.network in f.channels && qs[i] == OfChannels(e.network, f.channels[e.network])
  {
    assert qs[i] in qs[|FixedQueries(f, node)|..];
  }

  /** The queries of a filter do not overlap, except for the channel of a node with itself. */
  lemma QueriesMatchOnce(f: Filter, node: Address, qs: seq<Query>, e: ChainEvent)
    requires IsQueryList(f, node, qs) && (e.ChannelOpened? ==> e.first != e.second)
    ensures MatchedOnce(qs, e)
  {
    var n := |FixedQueries(f, node)|;
    FixedMatchOnce(f, node, e);
    forall i, j | 0 <= i < j < |qs| && Matches(qs[i], e) ensures !Matches(qs[j], e) {
      if i < n {
        assert qs[i] == FixedQueries(f, node)[i];
        if j < n {
          assert qs[j] == FixedQueries(f, node)[j];
        } else if Matches(qs[j], e) {
          ChannelQueryMatches(f, node, qs, j, e);
        }
      } else {
        assert qs[n..][i - n] != qs[n..][j - n];
        ChannelQueryMatches(f, node, qs, i, e);
        if Matches(qs[j], e) { ChannelQueryMatches(f, node, qs, j, e); }
      }
    }
  }

  /* ---- order ---- */

  /** `c` stands somewhere before every occurrence of `e`. */
  ghost predicate Before(es: seq<ChainEvent>, c: ChainEvent, e: ChainEvent) {
    forall y :: 0 <= y < |es| && es[y] == e ==> c in es[..y]
  }

  lemma BeforeConcat(a: seq<ChainEvent>, b: seq<ChainEvent>, c: ChainEvent, e: ChainEvent)
    requires (c in a && Before(a, c, e)) || (e !in a && Before(b, c, e))
    ensures Before(a + b, c, e)
  {
    forall y | 0 <= y < |a + b| && (a + b)[y] == e ensures c in (a + b)[..y] {
      if y < |a| {
        assert (a + b)[..y] == a[..y];
      } else {
        assert (a + b)[..y] == a + b[..y - |a|];
      }
    }
  }

  /** The position of an event in the chain of creations. */
  function Rank(e: ChainEvent): nat {
    match e
    case NetworkCreated(_, _, _, _) => 0
    case SecretRevealed(_, _, _) => 1
    case ChannelOpened(_, _, _, _, _, _) => 2
    case ChannelChanged(_, _, _, _, _) => 3
  }

  function QueryRank(q: Query): nat {
    match q
    case OfRegistries(_) => 0
    case OfSecrets(_) => 1
    case OpenedAsFirst(_, _) => 2
    case OpenedAsSecond(_, _) => 2
    case OfChannels(_, _) => 3
  }

  ghost predicate QueriesOrdered(qs: seq<Query>) {
    forall i, j :: 0 <= i < j < |qs| ==> QueryRank(qs[i]) <= QueryRank(qs[j])
  }

  lemma ListIsOrdered(f: Filter, node: Address, qs: seq<Query>)
    requires IsQueryList(f, node, qs)
    ensures QueriesOrdered(qs)
  {
    var n := |FixedQueries(f, node)|;
    forall i, j | 0 <= i < j < |qs| ensures QueryRank(qs[i]) <= QueryRank(qs[j]) {
      assert j >= n ==> qs[j] in qs[n..];
      assert i < n ==> qs[i] == FixedQueries(f, node)[i];
      assert j < n ==> qs[j] == FixedQueries(f, node)[j];
    }
  }

  lemma MatchHasRank(q: Query, e: ChainEvent)
    requires Matches(q, e)
    ensures QueryRank(q) == Rank(e)
  {
  }

  /** Queries before one that matches `c` return no event of a higher rank. */
  lemma HigherComesLater(chain: seq<ChainEvent>, qs: seq<Query>, n: nat, after: nat, to: nat, c: ChainEvent,
                         e: ChainEvent)
    requires QueriesOrdered(qs) && n < |qs| && Matches(qs[n], c) && Rank(c) < Rank(e)
    ensures e !in Gather(chain, qs[..n], after, to)
  {
    MatchHasRank(qs[n], c);
    forall q | q in qs[..n] ensures !Matches(q, e) {
      assert QueryRank(q) <= QueryRank(qs[n]);
      if Matches(q, e) { MatchHasRank(q, e); }
    }
  }

  lemma {:induction false} GatherKeepsRank(chain: seq<ChainEvent>, qs: seq<Query>, after: nat, to: nat, c: ChainEvent,
                                           e: ChainEvent)
    requires QueriesOrdered(qs) && Rank(c) < Rank(e) && c in Gather(chain, qs, after, to)
    ensures Before(Gather(chain, qs, after, to), c, e)
    decreases |qs|
  {
    var n := |qs| - 1;
    var front, back := Gather(chain, qs[..n], after, to), GetLogs(chain, qs[n], after, to);
    if c in front {
      GatherKeepsRank(chain, qs[..n], after, to, c, e);
    } else {
      HigherComesLater(chain, qs, n, after, to, c, e);
      LogsHaveOneRank(chain, qs[n], after, to, c, e);
    }
    BeforeConcat(front, back, c, e);
  }

  lemma LogsHaveOneRank(chain: seq<ChainEvent>, q: Query, after: nat, to: nat, c: ChainEvent, e: ChainEvent)
    requires Matches(q, c) && Rank(c) < Rank(e)
    ensures e !in GetLogs(chain, q, after, to)
  {
    MatchHasRank(q, c);
    if Matches(q, e) { MatchHasRank(q, e); }
  }

  /* ---- sorting by block ---- */

  function Insert(e: ChainEvent, es: seq<ChainEvent>): seq<ChainEvent> {
    if es == [] || e.block <= es[0].block then [e] + es else [es[0]] + Insert(e, es[1..])
  }

  /** `sort_events`: by block number, keeping the order within a block. */
  function SortEvents(es: seq<ChainEvent>): seq<ChainEvent> {
    if es == [] then [] else Insert(es[0], SortEvents(es[1..]))
  }

  ghost predicate SortedByBlock(es: seq<ChainEvent>) {
    forall i, j :: 0 <= i < j < |es| ==> es[i].block <= es[j].block
  }

  lemma {:induction false} InsertMembers(e: ChainEvent, es: seq<ChainEvent>)
    ensures multiset(Insert(e, es)) == multiset([e] + es)
    decreases |es|
  {
    if es != [] && e.block > es[0].block {
      InsertMembers(e, es[1..]);
      assert es == [es[0]] + es[1..];
    }
  }

  lemma {:induction false} InsertSorts(e: ChainEvent, es: seq<ChainEvent>)
    requires SortedByBlock(es)
    ensures SortedByBlock(Insert(e, es))
    decreases |es|
  {
    if es != [] && e.block > es[0].block {
      var rest := Insert(e, es[1..]);
      InsertSorts(e, es[1..]);
      InsertMembers(e, es[1..]);
      forall i | 0 <= i < |rest| ensures es[0].block <= rest[i].block {
        assert rest[i] in multiset(rest);
        assert rest[i] in [e] + es[1..];
      }
    }
  }

  lemma {:induction false} SortSorts(es: seq<ChainEvent>)
    ensures SortedByBlock(SortEvents(es)) && multiset(SortEvents(es)) == multiset(es)
    decreases |es|
  {
    if es != [] {
      SortSorts(es[1..]);
      InsertSorts(es[0], SortEvents(es[1..]));
      InsertMembers(es[0], SortEvents(es[1..]));
      assert es == [es[0]] + es[1..];
    }
  }

  lemma {:induction false} InsertBefore(x: ChainEvent, es: seq<ChainEvent>, c: ChainEvent, e: ChainEvent)
    requires x != e && (x == c || (c in es && Before(es, c, e))) && c.block <= e.block
    ensures Before(Insert(x, es), c, e) && c in Insert(x, es)
    decreases |es|
  {
    if es == [] || x.block <= es[0].block {
      BeforeConcat([x], es, c, e);
    } else if es[0] == c {
      BeforeConcat([c], Insert(x, es[1..]), c, e);
    } else {
      assert es[0] != e;
      if x != c {
        assert es == [es[0]] + es[1..] && c in es[1..];
        forall y | 0 <= y < |es[1..]| && es[1..][y] == e ensures c in es[1..][..y] {
          assert es[y + 1] == e && es[..y + 1] == [es[0]] + es[1..][..y];
        }
      }
      InsertBefore(x, es[1..], c, e);
      BeforeConcat([es[0]], Insert(x, es[1..]), c, e);
    }
  }

  /** Sorting keeps a creator before its dependents when it is not in a later block. */
  lemma {:induction false} SortBefore(es: seq<ChainEvent>, c: ChainEvent, e: ChainEvent)
    requires c in es && Before(es, c, e) && c != e && c.block <= e.block
    ensures Before(SortEvents(es), c, e) && c in SortEvents(es)
    decreases |es|
  {
    assert es[0] != e;
    if es[0] != c {
      assert es == [es[0]] + es[1..];
      forall y | 0 <= y < |es[1..]| && es[1..][y] == e ensures c in es[1..][..y] {
        assert es[y + 1] == e && es[..y + 1] == [es[0]] + es[1..][..y];
      }
      SortBefore(es[1..], c, e);
    }
    InsertBefore(es[0], SortEvents(es[1..]), c, e);
  }
}
