/**
 Consecutive batches of blockchain events (`raiden_common/blockchain/events.py`):
 what they find together, for which events it matters where a range is cut, and
 when secrets are listened to.
 */
module EventBatches {
  import opened Options
  import opened EventFilters

  lemma InitialTracks(k: Setting)
    ensures Tracks(k, k.initial, k.start)
  {
  }

  /* ---- when secrets are ignored ---- */

  /** A channel of the node is opened in these blocks. */
  ghost predicate OwnOpening(k: Setting, after: nat, to: nat) {
    exists o, n, c :: Opens(k, o, n, c) && after < o.block <= to
  }

  /** Round `j` of a batch finds the opening of a channel. */
  ghost predicate OpensInRound(chain: seq<ChainEvent>, f: Filter, node: Address, after: nat, to: nat, j: nat,
                               o: ChainEvent)
  {
    o.ChannelOpened? && o in Selected(chain, RoundFilter(chain, f, node, after, to, j), node, after, to)
  }

  ghost predicate SeenInRound(chain: seq<ChainEvent>, f: Filter, node: Address, after: nat, to: nat, j: nat) {
    exists o :: OpensInRound(chain, f, node, after, to, j, o)
  }

  lemma NewFiltersIgnore(es: set<ChainEvent>)
    ensures NewFilters(es).ignoreSecrets <==> !exists o :: o in es && o.ChannelOpened?
  {
    if o :| o in es && o.ChannelOpened? { assert o.network in OpenedNetworks(es); }
  }

  lemma RoundIgnores(chain: seq<ChainEvent>, f: Filter, node: Address, after: nat, to: nat, j: nat)
    ensures RoundFilter(chain, f, node, after, to, j + 1).ignoreSecrets
       <==> !SeenInRound(chain, f, node, after, to, j)
  {
    var es := Selected(chain, RoundFilter(chain, f, node, after, to, j), node, after, to);
    NewFiltersIgnore(es);
    if o :| o in es && o.ChannelOpened? { assert OpensInRound(chain, f, node, after, to, j, o); }
  }

  lemma GrownStep(chain: seq<ChainEvent>, f: Filter, node: Address, after: nat, to: nat, j: nat)
    ensures Grown(chain, f, node, after, to, j + 1).ignoreSecrets
       <==> Grown(chain, f, node, after, to, j).ignoreSecrets && !SeenInRound(chain, f, node, after, to, j)
  {
    RoundIgnores(chain, f, node, after, to, j);
  }

  /** The opening is in a network that the filter has, or in one that the second round asks for. */
  ghost predicate Reached(k: Setting, f: Filter, o: ChainEvent, rounds: nat) {
    && o in k.chain && OpenedBy(o, k.node)
    && ((rounds >= 1 && o.network in f.networks) || (rounds >= 2 && KnownNetwork(k, o.network)))
  }

  /** The first `rounds` rounds of a batch come across a channel of the node. */
  ghost predicate SeesOpening(k: Setting, f: Filter, last: nat, to: nat, rounds: nat) {
    exists o :: Reached(k, f, o, rounds) && last < o.block <= to
  }

  lemma FoundIsReached(k: Setting, f: Filter, last: nat, to: nat, j: nat, o: ChainEvent)
    requires Tracks(k, f, last) && OpensInRound(k.chain, f, k.node, last, to, j, o)
    ensures Reached(k, f, o, j + 1) && last < o.block <= to
  {
    if j > 0 { RoundsWithin(k, f, last, to, j); }
  }

  lemma ReachedIsFound(k: Setting, f: Filter, last: nat, to: nat, j: nat, o: ChainEvent)
    requires WellFormed(k.chain) && Tracks(k, f, last) && last < o.block <= to
    requires Reached(k, f, o, j + 1) && !Reached(k, f, o, j)
    ensures OpensInRound(k.chain, f, k.node, last, to, j, o)
  {
    if j == 1 {
      assert Wanted(k, o);
      OpeningFound(k, f, last, to, o);
    }
  }

  lemma SeesNext(k: Setting, f: Filter, last: nat, to: nat, j: nat)
    requires WellFormed(k.chain) && Tracks(k, f, last)
    ensures SeesOpening(k, f, last, to, j + 1)
       <==> SeesOpening(k, f, last, to, j) || SeenInRound(k.chain, f, k.node, last, to, j)
  {
    if SeesOpening(k, f, last, to, j + 1) {
      var o :| Reached(k, f, o, j + 1) && last < o.block <= to;
      if !Reached(k, f, o, j) { ReachedIsFound(k, f, last, to, j, o); }
    }
    if SeesOpening(k, f, last, to, j) {
      var o :| Reached(k, f, o, j) && last < o.block <= to;
      assert Reached(k, f, o, j + 1);
    }
    if SeenInRound(k.chain, f, k.node, last, to, j) {
      var o :| OpensInRound(k.chain, f, k.node, last, to, j, o);
      FoundIsReached(k, f, last, to, j, o);
    }
  }

  /** After `j` rounds the node ignores secrets exactly if it did before and no round saw a channel. */
  ghost predicate IgnoresUntilSeen(k: Setting, f: Filter, last: nat, to: nat, j: nat) {
    Grown(k.chain, f, k.node, last, to, j).ignoreSecrets <==> f.ignoreSecrets && !SeesOpening(k, f, last, to, j)
  }

  lemma IgnoresNext(k: Setting, f: Filter, last: nat, to: nat, j: nat)
    requires WellFormed(k.chain) && Tracks(k, f, last) && IgnoresUntilSeen(k, f, last, to, j)
    ensures IgnoresUntilSeen(k, f, last, to, j + 1)
  {
    GrownStep(k.chain, f, k.node, last, to, j);
    SeesNext(k, f, last, to, j);
  }

  lemma RoundsIgnore(k: Setting, f: Filter, last: nat, to: nat, rounds: nat)
    requires WellFormed(k.chain) && Tracks(k, f, last)
    ensures IgnoresUntilSeen(k, f, last, to, rounds)
  {
    for j := 0 to rounds
      invariant IgnoresUntilSeen(k, f, last, to, j)
    {
      IgnoresNext(k, f, last, to, j);
    }
  }

  lemma WholeBatchSees(k: Setting, f: Filter, last: nat, to: nat, rounds: nat)
    requires Tracks(k, f, last) && rounds >= 2
    ensures SeesOpening(k, f, last, to, rounds) <==> OwnOpening(k, last, to)
  {
    if SeesOpening(k, f, last, to, rounds) {
      var o :| Reached(k, f, o, rounds) && last < o.block <= to;
      assert Opens(k, o, o.network, o.channel);
    }
    if OwnOpening(k, last, to) {
      var o, n, c :| Opens(k, o, n, c) && last < o.block <= to;
      assert Reached(k, f, o, rounds);
    }
  }

  /** A whole batch ends the silence exactly when a channel of the node is opened in its blocks. */
  lemma BatchIgnores(k: Setting, f: Filter, last: nat, to: nat)
    requires WellFormed(k.chain) && Tracks(k, f, last)
    ensures Grown(k.chain, f, k.node, last, to, MAX_ROUNDS).ignoreSecrets
       <==> f.ignoreSecrets && !OwnOpening(k, last, to)
  {
    RoundsIgnore(k, f, last, to, MAX_ROUNDS);
    WholeBatchSees(k, f, last, to, MAX_ROUNDS);
  }

  /* ---- cutting a range into batches ---- */

  /** The batches end at these blocks, one after the other. */
  predicate Ascends(last: nat, cuts: seq<nat>)
    decreases |cuts|
  {
    cuts != [] ==> last < cuts[0] && Ascends(cuts[0], cuts[1..])
  }

  function LastBlock(last: nat, cuts: seq<nat>): nat { if cuts == [] then last else cuts[|cuts| - 1] }

  /** The events of consecutive batches, each with the filter the one before left. */
  function FoundInBatches(k: Setting, f: Filter, last: nat, cuts: seq<nat>): set<ChainEvent>
    decreases |cuts|
  {
    if cuts == [] then {} else
    Found(k.chain, f, k.node, last, cuts[0], MAX_ROUNDS)
    + FoundInBatches(k, Grown(k.chain, f, k.node, last, cuts[0], MAX_ROUNDS), cuts[0], cuts[1..])
  }

  lemma {:induction false} CutsGrow(last: nat, cuts: seq<nat>)
    requires Ascends(last, cuts)
    ensures last <= LastBlock(last, cuts) && forall i :: 0 <= i < |cuts| ==> last < cuts[i]
    decreases |cuts|
  {
    if cuts != [] {
      CutsGrow(cuts[0], cuts[1..]);
      assert forall i :: 0 < i < |cuts| ==> cuts[i] == cuts[1..][i - 1];
    }
  }

  /** A batch ends before `block`, and by its end a channel of the node has been opened. */
  ghost predicate HeardBefore(k: Setting, last: nat, cuts: seq<nat>, block: nat) {
    exists i :: 0 <= i < |cuts| && cuts[i] < block && OwnOpening(k, last, cuts[i])
  }

  /** Batches that start with the filter `f` ask for the event, the secrets once they are listened to. */
  ghost predicate AskedInBatches(k: Setting, f: Filter, last: nat, cuts: seq<nat>, e: ChainEvent) {
    if e.SecretRevealed? then
      f.secrets == Some(e.registry) && (!f.ignoreSecrets || HeardBefore(k, last, cuts, e.block))
    else
      Wanted(k, e)
  }

  lemma OpeningBySplit(k: Setting, last: nat, mid: nat, to: nat)
    requires last <= mid <= to
    ensures OwnOpening(k, last, to) <==> OwnOpening(k, last, mid) || OwnOpening(k, mid, to)
  {
    if OwnOpening(k, last, to) {
      var o, n, c :| Opens(k, o, n, c) && last < o.block <= to;
      assert o.block <= mid || mid < o.block;
    }
  }

  /** What has been heard before a block, after the first batch. */
  lemma HeardAfterFirst(k: Setting, last: nat, cuts: seq<nat>, block: nat)
    requires cuts != [] && Ascends(last, cuts) && cuts[0] < block
    ensures HeardBefore(k, last, cuts, block)
       <==> OwnOpening(k, last, cuts[0]) || HeardBefore(k, cuts[0], cuts[1..], block)
  {
    CutsGrow(cuts[0], cuts[1..]);
    if HeardBefore(k, last, cuts, block) {
      var i :| 0 <= i < |cuts| && cuts[i] < block && OwnOpening(k, last, cuts[i]);
      if i > 0 {
        assert cuts[i] == cuts[1..][i - 1];
        OpeningBySplit(k, last, cuts[0], cuts[i]);
      }
    }
    if HeardBefore(k, cuts[0], cuts[1..], block) {
      var i :| 0 <= i < |cuts[1..]| && cuts[1..][i] < block && OwnOpening(k, cuts[0], cuts[1..][i]);
      assert cuts[i + 1] == cuts[1..][i];
      OpeningBySplit(k, last, cuts[0], cuts[i + 1]);
    }
  }

  lemma NothingHeard(k: Setting, last: nat, cuts: seq<nat>, block: nat)
    requires Ascends(last, cuts) && (cuts != [] ==> block <= cuts[0])
    ensures !HeardBefore(k, last, cuts, block)
  {
    if cuts != [] {
      CutsGrow(cuts[0], cuts[1..]);
      assert forall i :: 0 < i < |cuts| ==> cuts[i] == cuts[1..][i - 1];
    }
  }

  lemma SecretsOfFirst(k: Setting, f: Filter, last: nat, cuts: seq<nat>, e: ChainEvent)
    requires WellFormed(k.chain) && Tracks(k, f, last) && cuts != [] && Ascends(last, cuts) && e.SecretRevealed?
    ensures var g := Grown(k.chain, f, k.node, last, cuts[0], MAX_ROUNDS);
      if e.block <= cuts[0] then AskedInBatches(k, f, last, cuts, e) <==> Selects(f, e, k.node)
      else AskedInBatches(k, f, last, cuts, e) <==> AskedInBatches(k, g, cuts[0], cuts[1..], e)
  {
    BatchIgnores(k, f, last, cuts[0]);
    if e.block <= cuts[0] {
      NothingHeard(k, last, cuts, e.block);
    } else {
      HeardAfterFirst(k, last, cuts, e.block);
    }
  }

  /**
   Consecutive batches find the closure under creation events, and the secrets
   that come after the batch in which the first channel of the node is found.
   */
  lemma {:induction false} BatchesFindWanted(k: Setting, f: Filter, last: nat, cuts: seq<nat>, e: ChainEvent)
    requires WellFormed(k.chain) && Tracks(k, f, last) && Ascends(last, cuts)
    ensures e in FoundInBatches(k, f, last, cuts) <==>
      e in k.chain && last < e.block <= LastBlock(last, cuts) && AskedInBatches(k, f, last, cuts, e)
    decreases |cuts|
  {
    if cuts != [] {
      BatchFindsWanted(k, f, last, cuts[0], e);
      BatchTracks(k, f, last, cuts[0], MAX_ROUNDS);
      BatchesFindWanted(k, Grown(k.chain, f, k.node, last, cuts[0], MAX_ROUNDS), cuts[0], cuts[1..], e);
      CutsGrow(cuts[0], cuts[1..]);
      if e.SecretRevealed? { SecretsOfFirst(k, f, last, cuts, e); }
    }
  }

  /* ---- for which events the cuts matter ---- */

  /** The batches cover the blocks after the start, up to `to`. */
  ghost predicate CutInto(k: Setting, cuts: seq<nat>, to: nat) {
    Ascends(k.start, cuts) && LastBlock(k.start, cuts) == to
  }

  ghost predicate FoundWith(k: Setting, cuts: seq<nat>, e: ChainEvent) {
    e in FoundInBatches(k, k.initial, k.start, cuts)
  }

  /** A secret of these blocks, ignored at first, with a channel of the node opened in an earlier block. */
  ghost predicate CutsDecide(k: Setting, to: nat, e: ChainEvent) {
    && e.SecretRevealed? && e in k.chain && k.start < e.block <= to && k.initial.secrets == Some(e.registry)
    && k.initial.ignoreSecrets && OwnOpening(k, k.start, e.block - 1)
  }

  lemma UndecidedIsSame(k: Setting, to: nat, cuts: seq<nat>, others: seq<nat>, e: ChainEvent)
    requires WellFormed(k.chain) && CutInto(k, cuts, to) && CutInto(k, others, to) && !CutsDecide(k, to, e)
    ensures FoundWith(k, cuts, e) <==> FoundWith(k, others, e)
  {
    InitialTracks(k);
    BatchesFindWanted(k, k.initial, k.start, cuts, e);
    BatchesFindWanted(k, k.initial, k.start, others, e);
    if e.SecretRevealed? && HeardBefore(k, k.start, cuts, e.block) { HeardIsOpened(k, cuts, e.block); }
    if e.SecretRevealed? && HeardBefore(k, k.start, others, e.block) { HeardIsOpened(k, others, e.block); }
  }

  lemma HeardIsOpened(k: Setting, cuts: seq<nat>, block: nat)
    requires HeardBefore(k, k.start, cuts, block)
    ensures block > 0 && OwnOpening(k, k.start, block - 1)
  {
    var i :| 0 <= i < |cuts| && cuts[i] < block && OwnOpening(k, k.start, cuts[i]);
    OpeningBySplit(k, k.start, cuts[i], block - 1);
  }

  /** One batch misses the secret, two that are cut right after the opening find it. */
  lemma DecidedDiffers(k: Setting, to: nat, e: ChainEvent) returns (cut: nat)
    requires WellFormed(k.chain) && CutsDecide(k, to, e)
    ensures CutInto(k, [to], to) && CutInto(k, [cut, to], to)
    ensures !FoundWith(k, [to], e) && FoundWith(k, [cut, to], e)
  {
    var o, n, c :| Opens(k, o, n, c) && k.start < o.block <= e.block - 1;
    cut := o.block;
    InitialTracks(k);
    BatchesFindWanted(k, k.initial, k.start, [to], e);
    BatchesFindWanted(k, k.initial, k.start, [cut, to], e);
    NothingHeard(k, k.start, [to], e.block);
    assert [cut, to][0] < e.block && OwnOpening(k, k.start, [cut, to][0]);
  }

  /**
   However a range is cut into batches, the same events are found: for every event
   but a secret that is ignored at first and comes in a later block than some
   channel of the node.
   */
  lemma CutsDoNotMatterIff(k: Setting, to: nat, e: ChainEvent)
    requires WellFormed(k.chain)
    ensures (forall cuts, others :: CutInto(k, cuts, to) && CutInto(k, others, to) ==>
               (FoundWith(k, cuts, e) <==> FoundWith(k, others, e)))
       <==> !CutsDecide(k, to, e)
  {
    if CutsDecide(k, to, e) {
      var cut := DecidedDiffers(k, to, e);
    } else {
      forall cuts, others | CutInto(k, cuts, to) && CutInto(k, others, to)
        ensures FoundWith(k, cuts, e) <==> FoundWith(k, others, e)
      {
        UndecidedIsSame(k, to, cuts, others, e);
      }
    }
  }

  /** A channel is opened in block 1 and a secret revealed in block 2, to a node without channels. */
  function EarlySecret(network: Address, node: Address, partner: Address, registry: Address): Setting {
    Setting([ChannelOpened(1, 0, network, 1, node, partner), SecretRevealed(2, 0, registry)], node,
            Filter({}, {network}, map[], Some(registry), true), 0)
  }

  /** One batch misses the secret, two batches find it. */
  lemma SecretCanBeMissed(network: Address, node: Address, partner: Address, registry: Address)
    ensures var k := EarlySecret(network, node, partner, registry);
      WellFormed(k.chain) && !FoundWith(k, [2], k.chain[1]) && FoundWith(k, [1, 2], k.chain[1])
  {
    var k := EarlySecret(network, node, partner, registry);
    assert Opens(k, k.chain[0], network, 1);
    InitialTracks(k);
    NothingHeard(k, 0, [2], 2);
    BatchesFindWanted(k, k.initial, 0, [2], k.chain[1]);
    assert [1, 2][0] == 1 && OwnOpening(k, 0, [1, 2][0]);
    BatchesFindWanted(k, k.initial, 0, [1, 2], k.chain[1]);
  }
}
