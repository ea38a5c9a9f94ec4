/**
 The write-ahead log on values (`raiden_common/storage/wal.py` over the tables of
 `raiden_common/storage/sqlite.py`): atomic batches, snapshots, restarts and
 replay.  The state, the state changes and the transition are left abstract.
 */
module LogReplay {
  import opened Options

  type State(!new)
  type StateChange(!new)
  type Event(!new)

  /**
   What a call of the transition does to the state object it is given: it leaves
   the value `inPlace` in it and returns either that same object or, with
   `other`, a different one.
   */
  datatype Effect =
    | Raises
    | Done(inPlace: State, other: Option<State>, events: seq<Event>)

  type Transition = (State, StateChange) -> Effect

  /** The value of the object that the transition returns. */
  function Value(e: Effect): State
    requires e.Done?
  {
    if e.other.Some? then e.other.value else e.inPlace
  }

  /** The state after applying the changes one by one; `None` when one of them raises. */
  function Fold(t: Transition, s: State, cs: seq<StateChange>): Option<State>
    decreases |cs|
  {
    if cs == [] then Some(s) else
    var e := t(s, cs[0]);
    if e.Raises? then None else Fold(t, Value(e), cs[1..])
  }

  lemma {:induction false} FoldConcat(t: Transition, s: State, a: seq<StateChange>, b: seq<StateChange>)
    ensures Fold(t, s, a + b) == (var m := Fold(t, s, a); if m.None? then None else Fold(t, m.value, b))
    decreases |a|
  {
    if a == [] {
      assert a + b == b;
    } else {
      assert (a + b)[0] == a[0] && (a + b)[1..] == a[1..] + b;
      var e := t(s, a[0]);
      if e.Done? { FoldConcat(t, Value(e), a[1..], b); }
    }
  }

  /* ---- one atomic batch ---- */

  /**
   The dispatcher of a batch.  `clone` is the value of the cloned state, which is
   what gets installed; the dispatcher works on it until the transition returns
   another object, and then on that `detached` one.
   */
  datatype Dispatcher = Dispatcher(clone: State, detached: Option<State>)

  function Current(d: Dispatcher): State { if d.detached.Some? then d.detached.value else d.clone }

  function Dispatch(t: Transition, d: Dispatcher, c: StateChange): Option<Dispatcher> {
    var e := t(Current(d), c);
    if e.Raises? then None
    else if d.detached.Some? then Some(d.(detached := Some(Value(e))))
    else Some(Dispatcher(e.inPlace, e.other))
  }

  function DispatchAll(t: Transition, d: Dispatcher, cs: seq<StateChange>): Option<Dispatcher>
    decreases |cs|
  {
    if cs == [] then Some(d) else
    var next := Dispatch(t, d, cs[0]);
    if next.None? then None else DispatchAll(t, next.value, cs[1..])
  }

  /** The state that a batch installs, `None` when it fails. */
  function Installed(t: Transition, s: State, cs: seq<StateChange>): Option<State> {
    var d := DispatchAll(t, Dispatcher(s, None), cs);
    if d.None? then None else Some(d.value.clone)
  }

  /** No change moves `v`. */
  ghost predicate Fixed(t: Transition, v: State) {
    forall c :: t(v, c).Done? ==> Value(t(v, c)) == v
  }

  /** Whenever the transition returns another object, both objects have the same value and it is final. */
  ghost predicate WorksInPlace(t: Transition) {
    forall s, c :: t(s, c).Done? && t(s, c).other.Some? ==>
      t(s, c).inPlace == t(s, c).other.value && Fixed(t, t(s, c).inPlace)
  }

  ghost predicate Sound(t: Transition, d: Dispatcher) {
    d.detached.Some? ==> d.detached.value == d.clone && Fixed(t, d.clone)
  }

  lemma {:induction false} SoundDispatch(t: Transition, d: Dispatcher, cs: seq<StateChange>)
    requires WorksInPlace(t) && Sound(t, d)
    ensures DispatchAll(t, d, cs).Some? <==> Fold(t, Current(d), cs).Some?
    ensures DispatchAll(t, d, cs).Some? ==> Fold(t, Current(d), cs) == Some(DispatchAll(t, d, cs).value.clone)
    decreases |cs|
  {
    if cs != [] {
      var next := Dispatch(t, d, cs[0]);
      if next.Some? { SoundDispatch(t, next.value, cs[1..]); }
    }
  }

  lemma DetachedIsLost(t: Transition, s: State, c: StateChange, c': StateChange)
    requires t(s, c).Done? && t(s, c).other.Some?
    ensures Installed(t, s, [c]) == Some(t(s, c).inPlace) && Fold(t, s, [c]) == t(s, c).other
    ensures var v := t(s, c).other.value;
      t(v, c').Done? ==>
        Installed(t, s, [c, c']) == Some(t(s, c).inPlace) && Fold(t, s, [c, c']) == Some(Value(t(v, c')))
  {
    var d := Dispatcher(t(s, c).inPlace, t(s, c).other);
    assert [c][1..] == [];
    assert DispatchAll(t, Dispatcher(s, None), [c]) == Some(d);
    assert [c, c'][1..] == [c'] && [c'][1..] == [];
    var v := t(s, c).other.value;
    if t(v, c').Done? {
      assert DispatchAll(t, d, [c']) == Some(d.(detached := Some(Value(t(v, c')))));
      assert Fold(t, v, [c']) == Some(Value(t(v, c')));
    }
  }

  /**
   A batch installs the fold of its changes, for every state and batch, exactly
   when the transition works in place.
   */
  lemma BatchInstallsFoldIff(t: Transition)
    ensures (forall s, cs :: Installed(t, s, cs) == Fold(t, s, cs)) <==> WorksInPlace(t)
  {
    if WorksInPlace(t) {
      forall s, cs ensures Installed(t, s, cs) == Fold(t, s, cs) {
        SoundDispatch(t, Dispatcher(s, None), cs);
      }
    }
    if forall s, cs :: Installed(t, s, cs) == Fold(t, s, cs) {
      forall s, c | t(s, c).Done? && t(s, c).other.Some?
        ensures t(s, c).inPlace == t(s, c).other.value && Fixed(t, t(s, c).inPlace)
      {
        DetachedIsLost(t, s, c, c);
        forall c' | t(t(s, c).inPlace, c').Done? ensures Value(t(t(s, c).inPlace, c')) == t(s, c).inPlace {
          DetachedIsLost(t, s, c, c');
          assert Installed(t, s, [c, c']) == Fold(t, s, [c, c']);
        }
      }
    }
  }

  /* ---- the tables ---- */

  /** A row of the table of state changes, with the rows of the event table that point to it. */
  datatype Row = Row(id: nat, change: StateChange, events: seq<Event>)

  /** `changeId` is the last change applied; the first snapshot has none. */
  datatype Snapshot = Snapshot(changeId: Option<nat>, data: State)

  /** Both tables are kept in the order of their identifiers; `nextId` is what the identifier factory gives next. */
  datatype Db = Db(rows: seq<Row>, snapshots: seq<Snapshot>, nextId: nat)

  datatype Wal = Wal(db: Db, state: State, saved: Option<nat>)

  /** The changes a context manager body dispatches, and whether it raises afterwards. */
  datatype Batch = Batch(changes: seq<StateChange>, fails: bool)

  function Changes(rows: seq<Row>): seq<StateChange> {
    seq(|rows|, i requires 0 <= i < |rows| => rows[i].change)
  }

  /** The rows that dispatching the changes writes, up to the first one that raises. */
  function Written(t: Transition, d: Dispatcher, cs: seq<StateChange>, id: nat): seq<Row>
    decreases |cs|
  {
    if cs == [] || t(Current(d), cs[0]).Raises? then [] else
    [Row(id, cs[0], t(Current(d), cs[0]).events)] + Written(t, Dispatch(t, d, cs[0]).value, cs[1..], id + 1)
  }

  /** `process_state_change_atomically`: a rollback takes the rows back but not the identifiers. */
  function Process(t: Transition, w: Wal, b: Batch): Wal {
    var d := DispatchAll(t, Dispatcher(w.state, None), b.changes);
    var rows := Written(t, Dispatcher(w.state, None), b.changes, w.db.nextId);
    var nextId := w.db.nextId + |rows|;
    if d.None? || b.fails then w.(db := w.db.(nextId := nextId)) else
    var db := w.db.(rows := w.db.rows + rows, nextId := nextId);
    Wal(db, d.value.clone, if rows == [] then w.saved else Some(nextId - 1))
  }

  /** `WriteAheadLog.snapshot`; `None` where it raises because nothing was saved yet. */
  function TakeSnapshot(w: Wal): Option<Wal> {
    if w.saved.None? then None else
    Some(w.(db := w.db.(snapshots := w.db.snapshots + [Snapshot(w.saved, w.state)])))
  }

  function StartId(s: Snapshot): nat { if s.changeId.Some? then s.changeId.value else 0 }

  /**
   `get_snapshot_before_state_change`: the newest snapshot that is not past
   `target`; no target is past everything.
   */
  function SnapshotBefore(snapshots: seq<Snapshot>, target: Option<nat>): Option<Snapshot>
    decreases |snapshots|
  {
    if snapshots == [] then None else
    var last := snapshots[|snapshots| - 1];
    if target.None? || StartId(last) <= target.value then Some(last)
    else SnapshotBefore(snapshots[..|snapshots| - 1], target)
  }

  /** `get_statechanges_by_range`, inclusive at both ends. */
  function InRange(rows: seq<Row>, first: nat, last: Option<nat>): seq<Row>
    decreases |rows|
  {
    if rows == [] then []
    else if first <= rows[0].id && (last.None? || rows[0].id <= last.value) then
      [rows[0]] + InRange(rows[1..], first, last)
    else InRange(rows[1..], first, last)
  }

  /** `replay_state_changes` from a snapshot. */
  function Replay(t: Transition, db: Db, s: Snapshot, target: Option<nat>): Option<State> {
    Fold(t, s.data, Changes(InRange(db.rows, StartId(s), target)))
  }

  /** `restore_state`, for a target that is not before the snapshot it finds. */
  function RestoreState(t: Transition, db: Db, target: Option<nat>): Option<State> {
    var s := SnapshotBefore(db.snapshots, target);
    if s.None? then None else Replay(t, db, s.value, target)
  }

  /** A restart: `restore_or_init_snapshot`, a replay of everything after it and a new log object. */
  function Restart(t: Transition, db: Db, initial: State): Option<Wal> {
    if db.snapshots == [] then
      var first := Snapshot(None, initial);
      var state := Replay(t, db, first, None);
      if state.None? then None else Some(Wal(db.(snapshots := [first]), state.value, None))
    else
      var state := RestoreState(t, db, None);
      if state.None? then None else Some(Wal(db, state.value, None))
  }

  /* ---- what the tables and the memory stand for ---- */

  ghost predicate Increasing(rows: seq<Row>) {
    forall i, j :: 0 <= i < j < |rows| ==> rows[i].id < rows[j].id
  }

  /** Every row holds the events that its change emits when the rows are folded from `s`. */
  ghost predicate Explains(t: Transition, s: State, rows: seq<Row>)
    decreases |rows|
  {
    rows != [] ==>
      var e := t(s, rows[0].change);
      e.Done? && rows[0].events == e.events && Explains(t, Value(e), rows[1..])
  }

  /** The snapshot is the fold of the rows up to its change. */
  ghost predicate SnapshotOf(t: Transition, initial: State, rows: seq<Row>, s: Snapshot) {
    match s.changeId
    case None => s.data == initial
    case Some(id) =>
      exists k :: 0 <= k < |rows| && rows[k].id == id && Fold(t, initial, Changes(rows[..k + 1])) == Some(s.data)
  }

  ghost predicate DbInv(t: Transition, initial: State, db: Db) {
    && Increasing(db.rows) && db.nextId > 0
    && (forall i :: 0 <= i < |db.rows| ==> 0 < db.rows[i].id < db.nextId)
    && Explains(t, initial, db.rows)
    && db.snapshots != [] && db.snapshots[0].changeId.None?
    && (forall i :: 0 <= i < |db.snapshots| ==> SnapshotOf(t, initial, db.rows, db.snapshots[i]))
    && (forall i, j :: 0 <= i < j < |db.snapshots| ==> StartId(db.snapshots[i]) <= StartId(db.snapshots[j]))
  }

  /** The state in memory is the fold of the log, and the saved identifier is the one of its last row. */
  ghost predicate WalInv(t: Transition, initial: State, w: Wal) {
    && DbInv(t, initial, w.db)
    && Fold(t, initial, Changes(w.db.rows)) == Some(w.state)
    && (w.saved.Some? ==> w.db.rows != [] && w.saved.value == w.db.rows[|w.db.rows| - 1].id)
  }

  lemma ChangesConcat(a: seq<Row>, b: seq<Row>)
    ensures Changes(a + b) == Changes(a) + Changes(b)
  {
  }

  /* ---- batches ---- */

  /** A batch that fails leaves the tables and the memory as they were; only identifiers are used up. */
  lemma FailedBatchChangesNothing(t: Transition, w: Wal, b: Batch)
    requires b.fails || Installed(t, w.state, b.changes).None?
    ensures Process(t, w, b) == w.(db := w.db.(nextId := Process(t, w, b).db.nextId))
    ensures Process(t, w, b).db.nextId >= w.db.nextId
  {
  }

  lemma {:induction false} WrittenRows(t: Transition, d: Dispatcher, cs: seq<StateChange>, id: nat)
    requires DispatchAll(t, d, cs).Some?
    ensures var rows := Written(t, d, cs, id);
      && |rows| == |cs| && Changes(rows) == cs
      && forall i :: 0 <= i < |rows| ==> rows[i].id == id + i
    decreases |cs|
  {
    if cs != [] {
      WrittenRows(t, Dispatch(t, d, cs[0]).value, cs[1..], id + 1);
    }
  }

  lemma {:induction false} WrittenExplained(t: Transition, d: Dispatcher, cs: seq<StateChange>, id: nat)
    requires WorksInPlace(t) && Sound(t, d)
    ensures Explains(t, Current(d), Written(t, d, cs, id))
    decreases |cs|
  {
    if cs != [] && t(Current(d), cs[0]).Done? {
      var next := Dispatch(t, d, cs[0]).value;
      WrittenExplained(t, next, cs[1..], id + 1);
      assert Written(t, d, cs, id)[1..] == Written(t, next, cs[1..], id + 1);
    }
  }

  lemma {:induction false} ExplainsConcat(t: Transition, s: State, a: seq<Row>, b: seq<Row>, m: State)
    requires Explains(t, s, a) && Fold(t, s, Changes(a)) == Some(m) && Explains(t, m, b)
    ensures Explains(t, s, a + b)
    decreases |a|
  {
    if a == [] {
      assert a + b == b;
    } else {
      assert (a + b)[1..] == a[1..] + b && Changes(a)[1..] == Changes(a[1..]);
      ExplainsConcat(t, Value(t(s, a[0].change)), a[1..], b, m);
    }
  }

  lemma SnapshotsKept(t: Transition, initial: State, rows: seq<Row>, more: seq<Row>, s: Snapshot)
    requires SnapshotOf(t, initial, rows, s)
    ensures SnapshotOf(t, initial, rows + more, s)
  {
    if s.changeId.Some? {
      var k :| 0 <= k < |rows| && rows[k].id == s.changeId.value
        && Fold(t, initial, Changes(rows[..k + 1])) == Some(s.data);
      assert (rows + more)[..k + 1] == rows[..k + 1] && (rows + more)[k] == rows[k];
    }
  }

  lemma CommittedKeeps(t: Transition, initial: State, w: Wal, b: Batch)
    requires WorksInPlace(t) && WalInv(t, initial, w) && !b.fails && Installed(t, w.state, b.changes).Some?
    ensures WalInv(t, initial, Process(t, w, b))
    ensures Changes(Process(t, w, b).db.rows) == Changes(w.db.rows) + b.changes
  {
    var d := Dispatcher(w.state, None);
    var rows := Written(t, d, b.changes, w.db.nextId);
    SoundDispatch(t, d, b.changes);
    WrittenRows(t, d, b.changes, w.db.nextId);
    WrittenExplained(t, d, b.changes, w.db.nextId);
    ExplainsConcat(t, initial, w.db.rows, rows, w.state);
    ChangesConcat(w.db.rows, rows);
    FoldConcat(t, initial, Changes(w.db.rows), b.changes);
    forall i | 0 <= i < |w.db.snapshots| ensures SnapshotOf(t, initial, w.db.rows + rows, w.db.snapshots[i]) {
      SnapshotsKept(t, initial, w.db.rows, rows, w.db.snapshots[i]);
    }
  }

  lemma ProcessKeeps(t: Transition, initial: State, w: Wal, b: Batch)
    requires WorksInPlace(t) && WalInv(t, initial, w)
    ensures WalInv(t, initial, Process(t, w, b))
  {
    if b.fails || Installed(t, w.state, b.changes).None? {
      FailedBatchChangesNothing(t, w, b);
    } else {
      CommittedKeeps(t, initial, w, b);
    }
  }

  /* ---- snapshots ---- */

  lemma SnapshotIdBounded(t: Transition, initial: State, db: Db, s: Snapshot)
    requires DbInv(t, initial, db) && SnapshotOf(t, initial, db.rows, s)
    ensures db.rows != [] ==> StartId(s) <= db.rows[|db.rows| - 1].id
    ensures db.rows == [] ==> StartId(s) == 0
  {
    if s.changeId.Some? {
      var k :| 0 <= k < |db.rows| && db.rows[k].id == s.changeId.value;
      assert k < |db.rows| - 1 ==> db.rows[k].id < db.rows[|db.rows| - 1].id;
    }
  }

  lemma SnapshotKeeps(t: Transition, initial: State, w: Wal)
    requires WalInv(t, initial, w) && TakeSnapshot(w).Some?
    ensures WalInv(t, initial, TakeSnapshot(w).value)
  {
    var s := Snapshot(w.saved, w.state);
    var k := |w.db.rows| - 1;
    assert w.db.rows[..k + 1] == w.db.rows;
    assert SnapshotOf(t, initial, w.db.rows, s);
    forall i | 0 <= i < |w.db.snapshots| ensures StartId(w.db.snapshots[i]) <= StartId(s) {
      SnapshotIdBounded(t, initial, w.db, w.db.snapshots[i]);
    }
  }

  /* ---- replay ---- */

  /** The target lets through exactly the first `n` rows. */
  ghost predicate UpTo(rows: seq<Row>, target: Option<nat>, n: nat) {
    && n <= |rows|
    && (target.None? ==> n == |rows|)
    && (target.Some? ==> forall i :: 0 <= i < |rows| ==> (rows[i].id <= target.value <==> i < n))
  }

  lemma {:induction false} RangeIsSlice(rows: seq<Row>, first: nat, last: Option<nat>, a: nat, b: nat)
    requires a <= b && UpTo(rows, last, b)
    requires forall i :: 0 <= i < |rows| ==> (first <= rows[i].id <==> a <= i)
    ensures InRange(rows, first, last) == rows[a..b]
    decreases |rows|
  {
    if rows != [] {
      RangeIsSlice(rows[1..], first, last, if a > 0 then a - 1 else 0, if b > 0 then b - 1 else 0);
    }
  }

  /** Applying the boundary change to the snapshot once more leaves it as it is. */
  ghost predicate BoundaryIdempotent(t: Transition, rows: seq<Row>, s: Snapshot) {
    forall k :: 0 <= k < |rows| && s.changeId == Some(rows[k].id) ==> Fold(t, s.data, [rows[k].change]) == Some(s.data)
  }

  lemma RowsFrom(rows: seq<Row>, k: nat, target: Option<nat>, n: nat)
    requires Increasing(rows) && UpTo(rows, target, n) && k < n
    ensures InRange(rows, rows[k].id, target) == rows[k..n]
  {
    RangeIsSlice(rows, rows[k].id, target, k, n);
  }

  lemma ChangesSplit(rows: seq<Row>, k: nat, n: nat)
    requires k < n <= |rows|
    ensures Changes(rows[k..n]) == [rows[k].change] + Changes(rows[k + 1..n])
    ensures Changes(rows[..n]) == Changes(rows[..k + 1]) + Changes(rows[k + 1..n])
  {
  }

  /** Replaying from a snapshot applies its boundary change again and then the rows after it. */
  lemma ReplayFrom(t: Transition, initial: State, db: Db, s: Snapshot, target: Option<nat>, n: nat) returns (k: nat)
    requires DbInv(t, initial, db) && SnapshotOf(t, initial, db.rows, s) && s.changeId.Some?
    requires UpTo(db.rows, target, n) && (target.Some? ==> StartId(s) <= target.value)
    ensures k < n && s.changeId == Some(db.rows[k].id) && Fold(t, initial, Changes(db.rows[..k + 1])) == Some(s.data)
    ensures Replay(t, db, s, target) == Fold(t, s.data, [db.rows[k].change] + Changes(db.rows[k + 1..n]))
    ensures Fold(t, initial, Changes(db.rows[..n])) == Fold(t, s.data, Changes(db.rows[k + 1..n]))
  {
    k :| 0 <= k < |db.rows| && db.rows[k].id == s.changeId.value
      && Fold(t, initial, Changes(db.rows[..k + 1])) == Some(s.data);
    RowsFrom(db.rows, k, target, n);
    ChangesSplit(db.rows, k, n);
    FoldConcat(t, initial, Changes(db.rows[..k + 1]), Changes(db.rows[k + 1..n]));
  }

  /** Whichever usable snapshot is chosen, replay gives the plain fold if the boundary change is idempotent there. */
  lemma ReplayIsFold(t: Transition, initial: State, db: Db, s: Snapshot, target: Option<nat>, n: nat)
    requires DbInv(t, initial, db) && SnapshotOf(t, initial, db.rows, s) && BoundaryIdempotent(t, db.rows, s)
    requires UpTo(db.rows, target, n) && (target.Some? ==> StartId(s) <= target.value)
    ensures Replay(t, db, s, target) == Fold(t, initial, Changes(db.rows[..n]))
  {
    if s.changeId.None? {
      RangeIsSlice(db.rows, 0, target, 0, n);
    } else {
      var k := ReplayFrom(t, initial, db, s, target, n);
      FoldConcat(t, s.data, [db.rows[k].change], Changes(db.rows[k + 1..n]));
    }
  }

  lemma {:induction false} BeforeIsUsable(snapshots: seq<Snapshot>, target: Option<nat>)
    requires snapshots != []
    requires target.Some? ==> exists i :: 0 <= i < |snapshots| && StartId(snapshots[i]) <= target.value
    ensures SnapshotBefore(snapshots, target).Some? && SnapshotBefore(snapshots, target).value in snapshots
    ensures target.Some? ==> StartId(SnapshotBefore(snapshots, target).value) <= target.value
    ensures target.Some? ==>
      (forall i, j :: 0 <= i < j < |snapshots| ==> StartId(snapshots[i]) <= StartId(snapshots[j])) ==>
      forall i :: 0 <= i < |snapshots| && StartId(snapshots[i]) <= target.value ==>
        StartId(snapshots[i]) <= StartId(SnapshotBefore(snapshots, target).value)
    decreases |snapshots|
  {
    var n := |snapshots| - 1;
    if target.Some? && StartId(snapshots[n]) > target.value {
      var i :| 0 <= i < |snapshots| && StartId(snapshots[i]) <= target.value;
      assert snapshots[..n][i] == snapshots[i];
      BeforeIsUsable(snapshots[..n], target);
    }
  }

  lemma RestoreIsReplay(t: Transition, initial: State, db: Db, m: nat) returns (s: Snapshot)
    requires DbInv(t, initial, db) && m < |db.rows|
    ensures s in db.snapshots && StartId(s) <= db.rows[m].id
    ensures RestoreState(t, db, Some(db.rows[m].id)) == Replay(t, db, s, Some(db.rows[m].id))
    ensures forall i :: 0 <= i < |db.snapshots| && StartId(db.snapshots[i]) == db.rows[m].id ==>
      StartId(s) == db.rows[m].id
  {
    BeforeIsUsable(db.snapshots, Some(db.rows[m].id));
    s := SnapshotBefore(db.snapshots, Some(db.rows[m].id)).value;
  }

  /** Restoring up to any row gives the fold of the changes up to it. */
  ghost predicate RestoresFolds(t: Transition, initial: State, db: Db) {
    forall m :: 0 <= m < |db.rows| ==>
      RestoreState(t, db, Some(db.rows[m].id)) == Fold(t, initial, Changes(db.rows[..m + 1]))
  }

  lemma RestoreIfIdempotent(t: Transition, initial: State, db: Db, m: nat)
    requires DbInv(t, initial, db) && m < |db.rows|
    requires forall i :: 0 <= i < |db.snapshots| ==> BoundaryIdempotent(t, db.rows, db.snapshots[i])
    ensures RestoreState(t, db, Some(db.rows[m].id)) == Fold(t, initial, Changes(db.rows[..m + 1]))
  {
    var s := RestoreIsReplay(t, initial, db, m);
    ReplayIsFold(t, initial, db, s, Some(db.rows[m].id), m + 1);
  }

  lemma IdempotentIfRestored(t: Transition, initial: State, db: Db, i: nat)
    requires DbInv(t, initial, db) && i < |db.snapshots|
    requires RestoresFolds(t, initial, db)
    ensures BoundaryIdempotent(t, db.rows, db.snapshots[i])
  {
    var s := db.snapshots[i];
    forall m | 0 <= m < |db.rows| && s.changeId == Some(db.rows[m].id)
      ensures Fold(t, s.data, [db.rows[m].change]) == Some(s.data)
    {
      var target := Some(db.rows[m].id);
      var chosen := RestoreIsReplay(t, initial, db, m);
      var k := ReplayFrom(t, initial, db, chosen, target, m + 1);
      var k' := ReplayFrom(t, initial, db, s, target, m + 1);
      assert k == m && k' == m;
      assert Changes(db.rows[m + 1..m + 1]) == [] && [db.rows[m].change] + [] == [db.rows[m].change];
    }
  }

  /**
   Restoring the state up to each logged change gives the plain fold up to that
   change exactly when, for every snapshot, applying its boundary change again
   does not change it.
   */
  lemma RestoreIsFoldIff(t: Transition, initial: State, db: Db)
    requires DbInv(t, initial, db)
    ensures RestoresFolds(t, initial, db)
       <==> (forall i :: 0 <= i < |db.snapshots| ==> BoundaryIdempotent(t, db.rows, db.snapshots[i]))
  {
    if forall i :: 0 <= i < |db.snapshots| ==> BoundaryIdempotent(t, db.rows, db.snapshots[i]) {
      forall m | 0 <= m < |db.rows|
        ensures RestoreState(t, db, Some(db.rows[m].id)) == Fold(t, initial, Changes(db.rows[..m + 1]))
      {
        RestoreIfIdempotent(t, initial, db, m);
      }
    }
    if RestoresFolds(t, initial, db) {
      forall i | 0 <= i < |db.snapshots| ensures BoundaryIdempotent(t, db.rows, db.snapshots[i]) {
        IdempotentIfRestored(t, initial, db, i);
      }
    }
  }

  /* ---- whole runs, with crashes and restarts ---- */

  /** Applying a change a second time, right after the first, does nothing. */
  ghost predicate Idempotent(t: Transition) {
    forall s, c :: t(s, c).Done? ==> t(Value(t(s, c)), c).Done? && Value(t(Value(t(s, c)), c)) == Value(t(s, c))
  }

  lemma RepeatedIsQuiet(t: Transition, x: State, c: StateChange, s: State)
    requires Idempotent(t) && Fold(t, x, [c]) == Some(s)
    ensures Fold(t, s, [c]) == Some(s)
  {
    assert t(x, c).Done? && Value(t(x, c)) == s;
  }

  lemma BoundaryOfIdempotent(t: Transition, initial: State, db: Db, s: Snapshot)
    requires Idempotent(t) && DbInv(t, initial, db) && SnapshotOf(t, initial, db.rows, s)
    ensures BoundaryIdempotent(t, db.rows, s)
  {
    if s.changeId.Some? {
      var k :| 0 <= k < |db.rows| && db.rows[k].id == s.changeId.value
        && Fold(t, initial, Changes(db.rows[..k + 1])) == Some(s.data);
      var c := db.rows[k].change;
      assert Changes(db.rows[..k + 1]) == Changes(db.rows[..k]) + [c];
      FoldConcat(t, initial, Changes(db.rows[..k]), [c]);
      RepeatedIsQuiet(t, Fold(t, initial, Changes(db.rows[..k])).value, c, s.data);
    }
  }

  /** All changes are idempotent, or at least the one at the boundary of the newest snapshot is, there. */
  ghost predicate RestartIsSafe(t: Transition, w: Wal) {
    Idempotent(t) || (w.db.snapshots != [] && BoundaryIdempotent(t, w.db.rows, w.db.snapshots[|w.db.snapshots| - 1]))
  }

  lemma RestartKeeps(t: Transition, initial: State, w: Wal)
    requires WalInv(t, initial, w) && RestartIsSafe(t, w)
    ensures Restart(t, w.db, initial) == Some(w.(saved := None))
  {
    var s := w.db.snapshots[|w.db.snapshots| - 1];
    if Idempotent(t) { BoundaryOfIdempotent(t, initial, w.db, s); }
    ReplayIsFold(t, initial, w.db, s, None, |w.db.rows|);
    assert w.db.rows[..|w.db.rows|] == w.db.rows;
  }

  /** A crash in the middle of a batch is a batch that fails, followed by a restart. */
  datatype Op = RunBatch(b: Batch) | WriteSnapshot | StartAgain

  /** An operation that raises changes nothing. */
  function Advance(t: Transition, initial: State, w: Wal, op: Op): Wal {
    match op
    case RunBatch(b) => Process(t, w, b)
    case WriteSnapshot => var r := TakeSnapshot(w); if r.None? then w else r.value
    case StartAgain => var r := Restart(t, w.db, initial); if r.None? then w else r.value
  }

  ghost predicate IsLogRun(t: Transition, initial: State, ws: seq<Wal>, ops: seq<Op>) {
    && |ws| == |ops| + 1
    && Restart(t, Db([], [], 1), initial) == Some(ws[0])
    && forall i :: 0 <= i < |ops| ==> ws[i + 1] == Advance(t, initial, ws[i], ops[i])
  }

  ghost predicate RestartsAreSafe(t: Transition, ws: seq<Wal>, ops: seq<Op>) {
    |ws| == |ops| + 1 && forall i :: 0 <= i < |ops| && ops[i].StartAgain? ==> RestartIsSafe(t, ws[i])
  }

  lemma FirstStart(t: Transition, initial: State)
    ensures Restart(t, Db([], [], 1), initial).Some? && WalInv(t, initial, Restart(t, Db([], [], 1), initial).value)
  {
  }

  lemma {:induction false} LogRunKeeps(t: Transition, initial: State, ws: seq<Wal>, ops: seq<Op>, n: nat)
    requires WorksInPlace(t) && IsLogRun(t, initial, ws, ops) && RestartsAreSafe(t, ws, ops) && n < |ws|
    ensures WalInv(t, initial, ws[n])
  {
    if n == 0 {
      FirstStart(t, initial);
    } else {
      LogRunKeeps(t, initial, ws, ops, n - 1);
      var w := ws[n - 1];
      assert ws[n - 1 + 1] == Advance(t, initial, w, ops[n - 1]);
      match ops[n - 1]
      case RunBatch(b) => ProcessKeeps(t, initial, w, b);
      case WriteSnapshot => if w.saved.Some? { SnapshotKeeps(t, initial, w); }
      case StartAgain => RestartKeeps(t, initial, w);
    }
  }

  /**
   After any sequence of committed and failed batches, snapshots, crashes and
   restarts: the state in memory is the fold of the logged changes from the
   initial state, the logged events are those of that fold, and restoring up to
   each logged change gives the fold up to it exactly when the boundary changes
   of the snapshots are idempotent.
   */
  lemma MemoryIsFoldOfLog(t: Transition, initial: State, ws: seq<Wal>, ops: seq<Op>, n: nat)
    requires WorksInPlace(t) && IsLogRun(t, initial, ws, ops) && RestartsAreSafe(t, ws, ops) && n < |ws|
    ensures var db := ws[n].db;
      && Fold(t, initial, Changes(db.rows)) == Some(ws[n].state)
      && Explains(t, initial, db.rows)
      && (RestoresFolds(t, initial, db)
          <==> (forall i :: 0 <= i < |db.snapshots| ==> BoundaryIdempotent(t, db.rows, db.snapshots[i])))
  {
    LogRunKeeps(t, initial, ws, ops, n);
    RestoreIsFoldIff(t, initial, ws[n].db);
  }

  /** With an idempotent transition every restart is safe and every restore is the plain fold. */
  lemma IdempotentLogRestores(t: Transition, initial: State, ws: seq<Wal>, ops: seq<Op>, n: nat, m: nat)
    requires WorksInPlace(t) && Idempotent(t) && IsLogRun(t, initial, ws, ops) && n < |ws| && m < |ws[n].db.rows|
    ensures RestoreState(t, ws[n].db, Some(ws[n].db.rows[m].id)) == Fold(t, initial, Changes(ws[n].db.rows[..m + 1]))
  {
    LogRunKeeps(t, initial, ws, ops, n);
    var db := ws[n].db;
    forall i | 0 <= i < |db.snapshots| ensures BoundaryIdempotent(t, db.rows, db.snapshots[i]) {
      BoundaryOfIdempotent(t, initial, db, db.snapshots[i]);
    }
    RestoreIfIdempotent(t, initial, db, m);
  }

  /* ---- what is logged, and when a snapshot is taken ---- */

  /** The operation is a batch that is committed. */
  ghost predicate Commits(t: Transition, w: Wal, op: Op) {
    op.RunBatch? && !op.b.fails && Installed(t, w.state, op.b.changes).Some?
  }

  /** The changes of the batches that were committed in the first `n` operations. */
  ghost function CommittedChanges(t: Transition, ws: seq<Wal>, ops: seq<Op>, n: nat): seq<StateChange>
    requires n <= |ops| < |ws|
  {
    if n == 0 then [] else
    CommittedChanges(t, ws, ops, n - 1) + if Commits(t, ws[n - 1], ops[n - 1]) then ops[n - 1].b.changes else []
  }

  ghost predicate SafeRun(t: Transition, initial: State, ws: seq<Wal>, ops: seq<Op>) {
    WorksInPlace(t) && IsLogRun(t, initial, ws, ops) && RestartsAreSafe(t, ws, ops)
  }

  lemma LoggedStep(t: Transition, initial: State, w: Wal, op: Op)
    requires WorksInPlace(t) && WalInv(t, initial, w) && (op.StartAgain? ==> RestartIsSafe(t, w))
    ensures Changes(Advance(t, initial, w, op).db.rows) ==
      Changes(w.db.rows) + if Commits(t, w, op) then op.b.changes else []
  {
    if Commits(t, w, op) {
      CommittedKeeps(t, initial, w, op.b);
    } else {
      if op.RunBatch? { FailedBatchChangesNothing(t, w, op.b); }
      if op.StartAgain? { RestartKeeps(t, initial, w); }
      assert Changes(w.db.rows) + [] == Changes(w.db.rows);
    }
  }

  /** The log holds exactly the changes of the committed batches, in order: none is lost and none is there twice. */
  lemma {:induction false} LogIsWhatWasCommitted(t: Transition, initial: State, ws: seq<Wal>, ops: seq<Op>, n: nat)
    requires SafeRun(t, initial, ws, ops) && n < |ws|
    ensures Changes(ws[n].db.rows) == CommittedChanges(t, ws, ops, n)
    decreases n
  {
    if n > 0 {
      LogIsWhatWasCommitted(t, initial, ws, ops, n - 1);
      LogRunKeeps(t, initial, ws, ops, n - 1);
      LoggedStep(t, initial, ws[n - 1], ops[n - 1]);
      assert ws[n - 1 + 1] == Advance(t, initial, ws[n - 1], ops[n - 1]);
    }
  }

  /** A change has been committed before operation `n`, and the node has not been started again since. */
  ghost predicate SavedSince(t: Transition, ws: seq<Wal>, ops: seq<Op>, n: nat)
    requires n <= |ops| < |ws|
  {
    exists k :: 0 <= k < n && Commits(t, ws[k], ops[k]) && ops[k].b.changes != []
      && forall j :: k < j < n ==> !ops[j].StartAgain?
  }

  lemma SavedStep(t: Transition, initial: State, w: Wal, op: Op)
    requires WorksInPlace(t) && WalInv(t, initial, w) && (op.StartAgain? ==> RestartIsSafe(t, w))
    ensures Advance(t, initial, w, op).saved.Some? <==>
      (Commits(t, w, op) && op.b.changes != []) || (!op.StartAgain? && w.saved.Some?)
  {
    if op.RunBatch? {
      if Commits(t, w, op) { WrittenRows(t, Dispatcher(w.state, None), op.b.changes, w.db.nextId); }
    } else if op.StartAgain? {
      RestartKeeps(t, initial, w);
    }
  }

  lemma {:induction false} SavedIff(t: Transition, initial: State, ws: seq<Wal>, ops: seq<Op>, n: nat)
    requires SafeRun(t, initial, ws, ops) && n < |ws|
    ensures ws[n].saved.Some? <==> SavedSince(t, ws, ops, n)
    decreases n
  {
    if n > 0 {
      SavedIff(t, initial, ws, ops, n - 1);
      LogRunKeeps(t, initial, ws, ops, n - 1);
      SavedStep(t, initial, ws[n - 1], ops[n - 1]);
      assert ws[n - 1 + 1] == Advance(t, initial, ws[n - 1], ops[n - 1]);
    }
  }

  /**
   A snapshot is stored exactly when a change was committed since the last start;
   it then holds the state in memory, under the identifier of the last logged change.
   */
  lemma SnapshotStoredIff(t: Transition, initial: State, ws: seq<Wal>, ops: seq<Op>, n: nat)
    requires SafeRun(t, initial, ws, ops) && n < |ops| && ops[n].WriteSnapshot?
    ensures var db := ws[n].db;
      if SavedSince(t, ws, ops, n) then
        && db.rows != []
        && ws[n + 1].db == db.(snapshots := db.snapshots + [Snapshot(Some(db.rows[|db.rows| - 1].id), ws[n].state)])
      else ws[n + 1] == ws[n]
  {
    SavedIff(t, initial, ws, ops, n);
    LogRunKeeps(t, initial, ws, ops, n);
    assert ws[n + 1] == Advance(t, initial, ws[n], ops[n]);
  }

  /* ---- identifiers ---- */

  /** How many of the changes go through before one raises. */
  ghost function GoThrough(t: Transition, s: State, cs: seq<StateChange>): nat
    decreases |cs|
  {
    if cs == [] || t(s, cs[0]).Raises? then 0 else 1 + GoThrough(t, Value(t(s, cs[0])), cs[1..])
  }

  lemma {:induction false} WrittenGoThrough(t: Transition, d: Dispatcher, cs: seq<StateChange>, id: nat)
    ensures |Written(t, d, cs, id)| == GoThrough(t, Current(d), cs)
    decreases |cs|
  {
    if cs != [] && t(Current(d), cs[0]).Done? {
      var next := Dispatch(t, d, cs[0]).value;
      assert Current(next) == Value(t(Current(d), cs[0]));
      WrittenGoThrough(t, next, cs[1..], id + 1);
    }
  }

  /** A start stores at most a first snapshot; rows and identifiers go on, and nothing counts as saved. */
  lemma RestartKeepsTables(t: Transition, db: Db, initial: State)
    requires Restart(t, db, initial).Some?
    ensures var w := Restart(t, db, initial).value;
      && w.db == db.(snapshots := if db.snapshots == [] then [Snapshot(None, initial)] else db.snapshots)
      && w.saved == None
  {
  }

  /** The identifiers given in the first `n` operations: one for each change that went through, committed or not. */
  ghost function Given(t: Transition, ws: seq<Wal>, ops: seq<Op>, n: nat): nat
    requires n <= |ops| < |ws|
  {
    if n == 0 then 0 else
    Given(t, ws, ops, n - 1)
    + if ops[n - 1].RunBatch? then GoThrough(t, ws[n - 1].state, ops[n - 1].b.changes) else 0
  }

  /** No identifier is given twice, not even one that a rollback took back: they are counted from one on. */
  lemma {:induction false} IdentifiersAreCounted(t: Transition, initial: State, ws: seq<Wal>, ops: seq<Op>, n: nat)
    requires IsLogRun(t, initial, ws, ops) && n < |ws|
    ensures ws[n].db.nextId == 1 + Given(t, ws, ops, n)
    decreases n
  {
    if n > 0 {
      IdentifiersAreCounted(t, initial, ws, ops, n - 1);
      var w, op := ws[n - 1], ops[n - 1];
      assert ws[n - 1 + 1] == Advance(t, initial, w, op);
      if op.RunBatch? { WrittenGoThrough(t, Dispatcher(w.state, None), op.b.changes, w.db.nextId); }
    }
  }
}
