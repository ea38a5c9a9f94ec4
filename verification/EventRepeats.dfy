/**
 Which events a batch finds in two of its rounds
 (`_query_and_track` in `raiden_common/blockchain/events.py`).
 */
module EventRepeats {
  import opened EventFilters

  /** `c` created the network in which `e` opens a channel, or opened the channel that `e` is about. */
  predicate IsCreator(c: ChainEvent, e: ChainEvent) {
    || (c.NetworkCreated? && e.ChannelOpened? && e.network == c.network)
    || (c.ChannelOpened? && e.ChannelChanged? && e.network == c.network && e.channel == c.channel)
  }

  /** The batch finds a creation although the filter it starts with asks for an event of what is created. */
  ghost predicate Repeats(chain: seq<ChainEvent>, f: Filter, node: Address, after: nat, to: nat) {
    exists c, e :: IsCreator(c, e) && c in Found(chain, f, node, after, to, MAX_ROUNDS)
      && e in Selected(chain, f, node, after, to)
  }

  function InRound(chain: seq<ChainEvent>, f: Filter, node: Address, after: nat, to: nat, j: nat): set<ChainEvent> {
    Selected(chain, RoundFilter(chain, f, node, after, to, j), node, after, to)
  }

  lemma RoundsFind(chain: seq<ChainEvent>, f: Filter, node: Address, after: nat, to: nat, j: nat, e: ChainEvent)
    requires j < MAX_ROUNDS && e in InRound(chain, f, node, after, to, j)
    ensures e in Found(chain, f, node, after, to, MAX_ROUNDS)
  {
    FoundRounds(chain, f, node, after, to, e);
  }

  /** What a round of creations leads to is found in the next round. */
  lemma NextRoundFinds(chain: seq<ChainEvent>, f: Filter, node: Address, after: nat, to: nat, j: nat,
                       c: ChainEvent, e: ChainEvent)
    requires c in InRound(chain, f, node, after, to, j) && IsCreator(c, e)
    requires e in Selected(chain, f, node, after, to)
    ensures e in InRound(chain, f, node, after, to, j + 1)
  {
    var es := InRound(chain, f, node, after, to, j);
    if c.ChannelOpened? { NewFiltersWatch(es, c.network, c.channel); }
    assert RoundFilter(chain, f, node, after, to, j + 1) == NewFilters(es);
  }

  /** An event of a later round has its creator in the round before. */
  lemma CreatorBefore(chain: seq<ChainEvent>, f: Filter, node: Address, after: nat, to: nat, j: nat, e: ChainEvent)
    returns (c: ChainEvent)
    requires e in InRound(chain, f, node, after, to, j + 1)
    ensures c in InRound(chain, f, node, after, to, j) && IsCreator(c, e)
  {
    var es := InRound(chain, f, node, after, to, j);
    assert RoundFilter(chain, f, node, after, to, j + 1) == NewFilters(es);
    if e.ChannelOpened? {
      c :| c in es && c.NetworkCreated? && c.network == e.network;
    } else {
      NewFiltersWatch(es, e.network, e.channel);
      c :| c in es && c.ChannelOpened? && c.network == e.network && c.channel == e.channel;
    }
  }

  /** An event that is found in two rounds, one of them the first. */
  lemma FirstAgain(chain: seq<ChainEvent>, f: Filter, node: Address, after: nat, to: nat, j: nat, e: ChainEvent)
    requires 0 < j < MAX_ROUNDS
    requires e in InRound(chain, f, node, after, to, 0) && e in InRound(chain, f, node, after, to, j)
    ensures Repeats(chain, f, node, after, to)
  {
    var c := CreatorBefore(chain, f, node, after, to, j - 1, e);
    RoundsFind(chain, f, node, after, to, j - 1, c);
  }

  /** An event of the second and the third round belongs to a channel with an opening of the first and the second. */
  lemma SecondAgain(chain: seq<ChainEvent>, f: Filter, node: Address, after: nat, to: nat, e: ChainEvent)
    requires e in InRound(chain, f, node, after, to, 1) && e in InRound(chain, f, node, after, to, 2)
    ensures Repeats(chain, f, node, after, to)
  {
    RoundsNarrow(chain, f, node, after, to, 2);
    var opening := CreatorBefore(chain, f, node, after, to, 0, e);
    var again := CreatorBefore(chain, f, node, after, to, 1, e);
    var created := CreatorBefore(chain, f, node, after, to, 0, again);
    RoundsNarrow(chain, f, node, after, to, 1);
    assert IsCreator(created, opening);
    RoundsFind(chain, f, node, after, to, 0, created);
  }

  /** No event is found in two rounds. */
  ghost predicate RoundsApart(chain: seq<ChainEvent>, f: Filter, node: Address, after: nat, to: nat) {
    forall i, j :: 0 <= i < j < MAX_ROUNDS ==>
      InRound(chain, f, node, after, to, i) !! InRound(chain, f, node, after, to, j)
  }

  lemma RepeatedIsTwice(chain: seq<ChainEvent>, f: Filter, node: Address, after: nat, to: nat)
    requires Repeats(chain, f, node, after, to)
    ensures !RoundsApart(chain, f, node, after, to)
  {
    var c, e :| IsCreator(c, e) && c in Found(chain, f, node, after, to, MAX_ROUNDS)
      && e in Selected(chain, f, node, after, to);
    assert e in InRound(chain, f, node, after, to, 0);
    FoundRounds(chain, f, node, after, to, c);
    RoundsNarrow(chain, f, node, after, to, 2);
    if c in InRound(chain, f, node, after, to, 0) {
      NextRoundFinds(chain, f, node, after, to, 0, c, e);
      assert e in InRound(chain, f, node, after, to, 0) * InRound(chain, f, node, after, to, 1);
    } else {
      NextRoundFinds(chain, f, node, after, to, 1, c, e);
      assert e in InRound(chain, f, node, after, to, 0) * InRound(chain, f, node, after, to, 2);
    }
  }

  /** Some event is found in two rounds exactly when the starting filter is ahead of what the batch creates. */
  lemma RoundsApartIff(chain: seq<ChainEvent>, f: Filter, node: Address, after: nat, to: nat)
    ensures RoundsApart(chain, f, node, after, to) <==> !Repeats(chain, f, node, after, to)
  {
    if Repeats(chain, f, node, after, to) {
      RepeatedIsTwice(chain, f, node, after, to);
    } else {
      forall i, j, e | 0 <= i < j < MAX_ROUNDS && e in InRound(chain, f, node, after, to, i)
        ensures e !in InRound(chain, f, node, after, to, j)
      {
        if e in InRound(chain, f, node, after, to, j) {
          if i == 0 { FirstAgain(chain, f, node, after, to, j, e); } else { SecondAgain(chain, f, node, after, to, e); }
        }
      }
    }
  }

  /* ---- filters that are not ahead ---- */

  /** The filter holds nothing that is created after block `last`. */
  ghost predicate NothingAhead(chain: seq<ChainEvent>, f: Filter, last: nat) {
    forall c :: c in chain && c.block > last ==>
      !(c.NetworkCreated? && c.network in f.networks) && !(c.ChannelOpened? && Watches(f, c.network, c.channel))
  }

  /** A batch that starts with such a filter finds nothing twice. */
  lemma NothingAheadNothingTwice(chain: seq<ChainEvent>, f: Filter, node: Address, after: nat, to: nat)
    requires NothingAhead(chain, f, after)
    ensures !Repeats(chain, f, node, after, to)
  {
    if Repeats(chain, f, node, after, to) {
      var c, e :| IsCreator(c, e) && c in Found(chain, f, node, after, to, MAX_ROUNDS)
        && e in Selected(chain, f, node, after, to);
      FoundRounds(chain, f, node, after, to, c);
    }
  }

  predicate SameCreation(c: ChainEvent, d: ChainEvent) {
    || (c.NetworkCreated? && d.NetworkCreated? && c.network == d.network)
    || (c.ChannelOpened? && d.ChannelOpened? && c.network == d.network && c.channel == d.channel)
  }

  /** Networks and channels are created once. */
  ghost predicate CreatedOnce(chain: seq<ChainEvent>) {
    forall c, d :: c in chain && d in chain && SameCreation(c, d) ==> c == d
  }

  /** What the second filter holds is in the first one or created up to block `to`. */
  ghost predicate AddsUpTo(chain: seq<ChainEvent>, f: Filter, g: Filter, to: nat) {
    && (forall n :: n in g.networks && n !in f.networks ==>
          exists c :: c in chain && c.NetworkCreated? && c.network == n && c.block <= to)
    && (forall n, c :: Watches(g, n, c) && !Watches(f, n, c) ==>
          exists o :: o in chain && o.ChannelOpened? && o.network == n && o.channel == c && o.block <= to)
  }

  lemma StaysBehind(chain: seq<ChainEvent>, f: Filter, g: Filter, last: nat, to: nat)
    requires CreatedOnce(chain) && NothingAhead(chain, f, last) && AddsUpTo(chain, f, g, to) && last <= to
    ensures NothingAhead(chain, g, to)
  {
    forall c | c in chain && c.block > to && c.NetworkCreated? ensures c.network !in g.networks {
      assert c.network !in f.networks;
      assert forall d :: d in chain && d.NetworkCreated? && d.network == c.network ==> SameCreation(c, d) && d == c;
    }
    forall c | c in chain && c.block > to && c.ChannelOpened? ensures !Watches(g, c.network, c.channel) {
      assert !Watches(f, c.network, c.channel);
      assert forall d :: d in chain && d.ChannelOpened? && d.network == c.network && d.channel == c.channel ==>
        SameCreation(c, d) && d == c;
    }
  }

  lemma RoundAdds(chain: seq<ChainEvent>, f: Filter, node: Address, after: nat, to: nat, j: nat)
    ensures AddsUpTo(chain, f, RoundFilter(chain, f, node, after, to, j + 1), to)
  {
    var es := InRound(chain, f, node, after, to, j);
    var g := RoundFilter(chain, f, node, after, to, j + 1);
    assert g == NewFilters(es);
    forall n, c | Watches(g, n, c) ensures exists o :: o in es && o.ChannelOpened? && o.network == n && o.channel == c {
      NewFiltersWatch(es, n, c);
    }
  }

  lemma UnionAdds(chain: seq<ChainEvent>, f: Filter, g: Filter, h: Filter, to: nat)
    requires h.secrets.None? && AddsUpTo(chain, f, g, to) && AddsUpTo(chain, f, h, to)
    ensures AddsUpTo(chain, f, Union(g, h), to)
  {
    UnionHolds(g, h);
  }

  lemma GrownAdds(chain: seq<ChainEvent>, f: Filter, node: Address, after: nat, to: nat, rounds: nat)
    ensures AddsUpTo(chain, f, Grown(chain, f, node, after, to, rounds), to)
  {
    for j := 0 to rounds
      invariant AddsUpTo(chain, f, Grown(chain, f, node, after, to, j), to)
    {
      RoundAdds(chain, f, node, after, to, j);
      UnionAdds(chain, f, Grown(chain, f, node, after, to, j), RoundFilter(chain, f, node, after, to, j + 1), to);
    }
  }

  /* ---- a batch that is retried ---- */

  /** A channel is opened in block 1 and gets a deposit in block 2. */
  function OpenedAndFunded(network: Address, node: Address, partner: Address): seq<ChainEvent> {
    [ChannelOpened(1, 0, network, 1, node, partner), ChannelChanged(2, 0, network, 1, Deposit)]
  }

  /** When a batch times out after its first round, the retry finds the deposit in both of its rounds. */
  lemma RetryRepeats(network: Address, node: Address, partner: Address, f: Filter)
    requires network in f.networks
    ensures var chain := OpenedAndFunded(network, node, partner);
      Repeats(chain, Grown(chain, f, node, 0, 2, 1), node, 0, 2)
  {
    var chain := OpenedAndFunded(network, node, partner);
    var g := Grown(chain, f, node, 0, 2, 1);
    assert chain[0] in InRound(chain, f, node, 0, 2, 0);
    FoundIsTracked(chain, f, node, 0, 2, 0, 1, chain[0]);
    GrownHolds(chain, f, node, 0, 2, 1, 0);
    assert chain[0] in InRound(chain, g, node, 0, 2, 0);
    RoundsFind(chain, g, node, 0, 2, 0, chain[0]);
    assert IsCreator(chain[0], chain[1]) && chain[1] in Selected(chain, g, node, 0, 2);
  }
}
