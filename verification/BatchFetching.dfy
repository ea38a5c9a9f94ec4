/**
 How many blocks are asked for at once (`raiden_common/blockchain/utils.py`) and
 the block ranges that repeated calls of `fetch_logs_in_batch` cover.
 */
module BatchFetching {
  import opened Options
  import opened Integers

  datatype Config = Config(min: nat, initial: nat, max: nat)

  predicate ValidConfig(c: Config) { 0 < c.initial && c.min <= c.max }

  function Doubled(n: nat, times: nat): nat { if times == 0 then n else 2 * Doubled(n, times - 1) }
  function Halved(n: nat, times: nat): nat { if times == 0 then n else Halved(n, times - 1) / 2 }

  /** Halving again and again gives the integer part of the quotient by the power of two. */
  lemma {:induction false} HalvedIsQuotient(n: nat, times: nat)
    ensures Doubled(Halved(n, times), times) <= n < Doubled(Halved(n, times) + 1, times)
  {
    if times > 0 {
      HalvedIsQuotient(n, times - 1);
      var h := Halved(n, times - 1);
      DoubledMonotone(2 * (h / 2), h, times - 1);
      DoubledMonotone(h + 1, 2 * (h / 2 + 1), times - 1);
      DoubledShift(h / 2, times - 1);
      DoubledShift(h / 2 + 1, times - 1);
    }
  }

  lemma {:induction false} DoubledMonotone(a: nat, b: nat, times: nat)
    requires a <= b
    ensures Doubled(a, times) <= Doubled(b, times)
  {
    if times > 0 { DoubledMonotone(a, b, times - 1); }
  }

  lemma {:induction false} DoubledShift(a: nat, times: nat)
    ensures Doubled(2 * a, times) == Doubled(a, times + 1)
  {
    if times > 0 { DoubledShift(a, times - 1); }
  }

  /** The integer part of the initial size times two to the power `scale`. */
  function RawSize(c: Config, scale: int): nat {
    if scale >= 0 then Doubled(c.initial, scale) else Halved(c.initial, -scale)
  }

  /** `batch_size`. */
  function BatchSize(c: Config, scale: int): nat { Max(c.min, Min(c.max, RawSize(c, scale))) }

  /** A decrease halves the unclamped size. */
  lemma DecreaseHalves(c: Config, scale: int)
    ensures RawSize(c, scale - 1) == RawSize(c, scale) / 2
  {
    if scale <= 0 { assert Halved(c.initial, -scale + 1) == Halved(c.initial, -scale) / 2; }
  }

  /** So a decrease that is allowed makes it smaller. */
  lemma DecreaseShrinks(c: Config, scale: int)
    requires ValidConfig(c) && BatchSize(c, scale) > c.min
    ensures RawSize(c, scale - 1) < RawSize(c, scale)
  {
    DecreaseHalves(c, scale);
  }

  /** An increase doubles the unclamped size, but for what an earlier halving rounded off. */
  lemma IncreaseDoubles(c: Config, scale: int)
    ensures 2 * RawSize(c, scale) <= RawSize(c, scale + 1) <= 2 * RawSize(c, scale) + 1
  {
    if scale < 0 { assert Halved(c.initial, -scale) == Halved(c.initial, -scale - 1) / 2; }
  }

  class BlockBatchSizeAdjuster {
    const config: Config
    var scale: int

    constructor (config: Config)
      requires ValidConfig(config)
      ensures this.config == config && scale == 0
    {
      this.config := config;
      scale := 0;
    }

    function Size(): (n: nat)
      requires ValidConfig(config)
      reads this
      ensures config.min <= n <= config.max
    {
      BatchSize(config, scale)
    }

    /** Doubles the size and does nothing at the maximum. */
    method Increase()
      requires ValidConfig(config)
      modifies this
      ensures scale == Faster(config, old(scale)) && Size() >= old(Size())
      ensures var before, after := RawSize(config, old(scale)), RawSize(config, scale);
        if old(Size()) < config.max then 2 * before <= after <= 2 * before + 1 else after == before
    {
      IncreaseDoubles(config, scale);
      if Size() >= config.max { return; }
      scale := scale + 1;
    }

    /** Fails at the minimum. */
    method Decrease() returns (ok: bool)
      requires ValidConfig(config)
      modifies this
      ensures ok <==> old(Size()) > config.min
      ensures scale == if ok then old(scale) - 1 else old(scale)
      ensures ok ==> RawSize(config, scale) == RawSize(config, old(scale)) / 2
    {
      if Size() <= config.min { return false; }
      DecreaseHalves(config, scale);
      scale := scale - 1;
      ok := true;
    }
  }

  function Faster(c: Config, scale: int): int {
    if BatchSize(c, scale) >= c.max then scale else scale + 1
  }

  /* ---- one call of fetch_logs_in_batch ---- */

  /** How long the slowest request of a batch took, against the two thresholds. */
  datatype Speed = Fast | Medium | Slow

  datatype Reply = TimedOut | Answered(speed: Speed)

  datatype Fetcher = Fetcher(last: nat, scale: int)

  datatype Fetch =
    | TargetInPast
    | TooSmall
    | Retry(next: Fetcher)
    | Polled(next: Fetcher, from: nat, to: nat)

  function ToBlock(c: Config, f: Fetcher, target: nat): nat { Min(f.last + 1 + BatchSize(c, f.scale), target) }

  /** The scale after an answered batch; `None` when it should shrink below the minimum. */
  function Adjusted(c: Config, f: Fetcher, target: nat, speed: Speed): Option<int> {
    match speed
    case Fast => Some(if target - (f.last + 1) > BatchSize(c, f.scale) then Faster(c, f.scale) else f.scale)
    case Medium => Some(f.scale)
    case Slow => if BatchSize(c, f.scale) <= c.min then None else Some(f.scale - 1)
  }

  /** A failure leaves the last fetched block where it was, even when the logs had arrived. */
  function FetchBatch(c: Config, f: Fetcher, target: nat, reply: Reply): Fetch {
    if target <= f.last then TargetInPast else
    match reply
    case TimedOut => if BatchSize(c, f.scale) <= c.min then TooSmall else Retry(f.(scale := f.scale - 1))
    case Answered(speed) =>
      var scale := Adjusted(c, f, target, speed);
      if scale.None? then TooSmall
      else var to := ToBlock(c, f, target); Polled(Fetcher(to, scale.value), f.last + 1, to)
  }

  /** The size is the unclamped one where that is within the bounds, and else the bound that it passes. */
  lemma SizeIsClamped(c: Config, scale: int)
    requires ValidConfig(c)
    ensures c.min <= RawSize(c, scale) <= c.max ==> BatchSize(c, scale) == RawSize(c, scale)
    ensures RawSize(c, scale) < c.min ==> BatchSize(c, scale) == c.min
    ensures RawSize(c, scale) > c.max ==> BatchSize(c, scale) == c.max
    ensures RawSize(c, 0) == c.initial
  {
  }

  /** A target that has been fetched already is refused, whatever the answer would be. */
  lemma PastTargetRefused(c: Config, f: Fetcher, target: nat, reply: Reply)
    ensures FetchBatch(c, f, target, reply).TargetInPast? <==> target <= f.last
  {
  }

  /**
   A fast answer never fails and never shrinks the size; it doubles the unclamped
   size exactly when more than one batch is left and the size is below the maximum.
   */
  lemma FastAnswer(c: Config, f: Fetcher, target: nat)
    requires ValidConfig(c) && f.last < target
    ensures var r := FetchBatch(c, f, target, Answered(Fast));
      && r.Polled? && BatchSize(c, r.next.scale) >= BatchSize(c, f.scale)
      && (if target - (f.last + 1) > BatchSize(c, f.scale) && BatchSize(c, f.scale) < c.max then
            2 * RawSize(c, f.scale) <= RawSize(c, r.next.scale) <= 2 * RawSize(c, f.scale) + 1
          else r.next.scale == f.scale)
  {
    IncreaseDoubles(c, f.scale);
  }

  /** A medium answer keeps the size. */
  lemma MediumAnswer(c: Config, f: Fetcher, target: nat)
    requires f.last < target
    ensures var r := FetchBatch(c, f, target, Answered(Medium)); r.Polled? && r.next.scale == f.scale
  {
  }

  /** A slow answer and a timeout halve the unclamped size, or fail exactly at the minimum. */
  lemma SlowAnswer(c: Config, f: Fetcher, target: nat)
    requires ValidConfig(c) && f.last < target
    ensures var r := FetchBatch(c, f, target, Answered(Slow));
      if BatchSize(c, f.scale) == c.min then r.TooSmall?
      else
        && r.Polled? && RawSize(c, r.next.scale) == RawSize(c, f.scale) / 2
        && BatchSize(c, r.next.scale) <= BatchSize(c, f.scale)
    ensures var r := FetchBatch(c, f, target, TimedOut);
      if BatchSize(c, f.scale) == c.min then r.TooSmall?
      else r.Retry? && r.next.last == f.last && RawSize(c, r.next.scale) == RawSize(c, f.scale) / 2
  {
    DecreaseHalves(c, f.scale);
  }

  /** A polled batch starts after the last one and has as many further blocks as the size, or all that are left. */
  lemma PolledRange(c: Config, f: Fetcher, target: nat, reply: Reply)
    requires ValidConfig(c) && f.last < target && FetchBatch(c, f, target, reply).Polled?
    ensures var r := FetchBatch(c, f, target, reply);
      && r.from == f.last + 1 && r.next.last == r.to
      && r.to - r.from == Min(BatchSize(c, f.scale), target - r.from)
  {
  }

  /**
   Every call either raises, or comes closer to the target, or keeps its distance
   with a smaller batch size: fetching goes on only finitely often.
   */
  lemma FetchMakesProgress(c: Config, f: Fetcher, target: nat, reply: Reply)
    requires ValidConfig(c) && f.last < target
    ensures match FetchBatch(c, f, target, reply)
      case TargetInPast => false
      case TooSmall => BatchSize(c, f.scale) == c.min
      case Retry(next) => next.last == f.last && RawSize(c, next.scale) < RawSize(c, f.scale)
      case Polled(next, from, to) => from == f.last + 1 <= to == next.last <= target && to - from <= c.max
  {
    if reply.TimedOut? && BatchSize(c, f.scale) > c.min { DecreaseShrinks(c, f.scale); }
  }

  /* ---- ranges over many calls ---- */

  datatype Range = Range(from: nat, to: nat)

  /** The ranges follow each other without gap or overlap from `start` to `last`. */
  predicate Chained(ranges: seq<Range>, start: nat, last: nat)
    decreases |ranges|
  {
    if ranges == [] then start == last
    else ranges[0].from == start + 1 <= ranges[0].to && Chained(ranges[1..], ranges[0].to, last)
  }

  lemma {:induction false} ChainedAppend(ranges: seq<Range>, start: nat, last: nat, to: nat)
    requires Chained(ranges, start, last) && last < to
    ensures Chained(ranges + [Range(last + 1, to)], start, to)
    decreases |ranges|
  {
    var r := Range(last + 1, to);
    if ranges == [] {
      assert ranges + [r] == [r] && [r][1..] == [];
    } else {
      assert (ranges + [r])[0] == ranges[0] && (ranges + [r])[1..] == ranges[1..] + [r];
      ChainedAppend(ranges[1..], ranges[0].to, last, to);
    }
  }

  predicate Covers(r: Range, b: nat) { r.from <= b <= r.to }

  lemma {:induction false} ChainedAscends(ranges: seq<Range>, start: nat, last: nat)
    requires Chained(ranges, start, last)
    ensures start <= last
    ensures forall i :: 0 <= i < |ranges| ==> start < ranges[i].from <= ranges[i].to <= last
    decreases |ranges|
  {
    if ranges != [] {
      ChainedAscends(ranges[1..], ranges[0].to, last);
      assert forall i :: 1 <= i < |ranges| ==> ranges[i] == ranges[1..][i - 1];
    }
  }

  /** Chained ranges cover each block of the whole stretch exactly once, and no other block. */
  lemma {:induction false} ChainedPartitions(ranges: seq<Range>, start: nat, last: nat, b: nat)
    requires Chained(ranges, start, last)
    ensures start < b <= last <==> exists i :: 0 <= i < |ranges| && Covers(ranges[i], b)
    ensures forall i, j :: 0 <= i < j < |ranges| && Covers(ranges[i], b) ==> !Covers(ranges[j], b)
    decreases |ranges|
  {
    ChainedAscends(ranges, start, last);
    if ranges != [] {
      var rest := ranges[1..];
      ChainedPartitions(rest, ranges[0].to, last, b);
      ChainedAscends(rest, ranges[0].to, last);
      assert forall i :: 1 <= i < |ranges| ==> ranges[i] == rest[i - 1];
      if start < b <= last && b > ranges[0].to {
        var i :| 0 <= i < |rest| && Covers(rest[i], b);
        assert Covers(ranges[i + 1], b);
      } else if start < b <= last {
        assert Covers(ranges[0], b);
      }
    }
  }

  /* ---- synchronization with crashes ---- */

  /**
   `block` is the number of the last `Block` change in the log; `polled` is a
   range that was fetched and is not committed yet.
   */
  datatype Sync = Sync(block: nat, committed: seq<Range>, fetcher: Fetcher, polled: Option<Range>)

  /** A crash may come at any point; a failed call or a failed batch ends in one too. */
  datatype SyncOp = Fetches(head: nat, reply: Reply) | Commits | Crashes

  predicate SyncAllowed(s: Sync, op: SyncOp) {
    match op
    case Fetches(head, _) => s.polled.None? && head > s.fetcher.last
    case Commits => s.polled.Some?
    case Crashes => true
  }

  /** A restart continues after the last committed block, with the initial batch size. */
  function Restarted(s: Sync): Sync { s.(fetcher := Fetcher(s.block, 0), polled := None) }

  function SyncStep(c: Config, s: Sync, op: SyncOp): Sync
    requires SyncAllowed(s, op)
  {
    match op
    case Fetches(head, reply) =>
      (match FetchBatch(c, s.fetcher, head, reply)
       case Polled(next, from, to) => s.(fetcher := next, polled := Some(Range(from, to)))
       case Retry(next) => s.(fetcher := next)
       case _ => Restarted(s))
    case Commits => s.(block := s.polled.value.to, committed := s.committed + [s.polled.value], polled := None)
    case Crashes => Restarted(s)
  }

  ghost predicate SyncInv(s: Sync, start: nat) {
    && Chained(s.committed, start, s.block)
    && (s.polled.None? ==> s.fetcher.last == s.block)
    && (s.polled.Some? ==> s.polled.value == Range(s.block + 1, s.fetcher.last) && s.block < s.fetcher.last)
  }

  lemma SyncStepKeeps(c: Config, s: Sync, op: SyncOp, start: nat)
    requires ValidConfig(c) && SyncInv(s, start) && SyncAllowed(s, op)
    ensures SyncInv(SyncStep(c, s, op), start)
    ensures SyncStep(c, s, op).fetcher.last <= Max(s.fetcher.last, if op.Fetches? then op.head else 0)
    ensures SyncStep(c, s, op).block <= Max(s.block, s.fetcher.last)
  {
    match op
    case Fetches(head, reply) => FetchMakesProgress(c, s.fetcher, head, reply);
    case Commits => ChainedAppend(s.committed, start, s.block, s.polled.value.to);
    case Crashes =>
  }

  ghost predicate IsSyncRun(c: Config, states: seq<Sync>, ops: seq<SyncOp>, start: nat) {
    && |states| == |ops| + 1
    && states[0] == Sync(start, [], Fetcher(start, 0), None)
    && forall i :: 0 <= i < |ops| ==> SyncAllowed(states[i], ops[i]) && states[i + 1] == SyncStep(c, states[i], ops[i])
  }

  lemma {:induction false} SyncRunKeeps(c: Config, states: seq<Sync>, ops: seq<SyncOp>, start: nat, head: nat, n: nat)
    requires ValidConfig(c) && IsSyncRun(c, states, ops, start) && n < |states| && start <= head
    requires forall i :: 0 <= i < n && ops[i].Fetches? ==> ops[i].head <= head
    ensures SyncInv(states[n], start) && states[n].block <= states[n].fetcher.last <= head
  {
    if n > 0 {
      SyncRunKeeps(c, states, ops, start, head, n - 1);
      SyncStepKeeps(c, states[n - 1], ops[n - 1], start);
    }
  }

  /**
   With crashes at any point, the committed batches split the processed blocks:
   none is skipped and none is committed twice, and the synced block never
   passes the largest confirmed head that was asked for.
   */
  lemma CommittedOnce(c: Config, states: seq<Sync>, ops: seq<SyncOp>, start: nat, head: nat, n: nat, b: nat)
    requires ValidConfig(c) && IsSyncRun(c, states, ops, start) && n < |states| && start <= head
    requires forall i :: 0 <= i < n && ops[i].Fetches? ==> ops[i].head <= head
    ensures states[n].block <= head
    ensures start < b <= states[n].block <==>
      exists i :: 0 <= i < |states[n].committed| && Covers(states[n].committed[i], b)
    ensures forall i, j :: 0 <= i < j < |states[n].committed| && Covers(states[n].committed[i], b) ==>
      !Covers(states[n].committed[j], b)
  {
    SyncRunKeeps(c, states, ops, start, head, n);
    ChainedPartitions(states[n].committed, start, states[n].block, b);
  }
}
