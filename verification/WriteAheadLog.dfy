/**
 The write-ahead log and its storage as objects.  The state is an object too, so
 that working on a clone, mutating it in place and returning another object are
 told apart as in `raiden_common/storage/wal.py`.
 */
module WriteAheadLog {
  import opened Options
  import opened LogReplay

  class StateObject {
    var value: State

    constructor (value: State)
      ensures this.value == value
    {
      this.value := value;
    }
  }

  /** Calls the transition on a state object; `None` when it raises. */
  method CallTransition(t: Transition, s: StateObject, c: StateChange)
    returns (result: Option<StateObject>, events: seq<Event>)
    modifies s
    ensures var e := t(old(s.value), c);
      if e.Raises? then result.None? && s.value == old(s.value) else
        && result.Some? && events == e.events && s.value == e.inPlace
        && (if e.other.Some? then fresh(result.value) && result.value.value == e.other.value else result.value == s)
  {
    var e := t(s.value, c);
    if e.Raises? { return None, []; }
    s.value := e.inPlace;
    events := e.events;
    if e.other.Some? {
      var o := new StateObject(e.other.value);
      result := Some(o);
    } else {
      result := Some(s);
    }
  }

  /** The two tables, with what a transaction needs to roll back. */
  class Storage {
    var rows: seq<Row>
    var snapshots: seq<Snapshot>
    var nextId: nat
    var inTransaction: bool
    var atBegin: seq<Row>

    constructor ()
      ensures View() == Db([], [], 1) && !inTransaction
    {
      rows, snapshots, nextId, inTransaction, atBegin := [], [], 1, false, [];
    }

    function View(): Db
      reads this
    {
      Db(rows, snapshots, nextId)
    }

    method Begin()
      modifies this
      ensures View() == old(View()) && inTransaction && atBegin == rows
    {
      inTransaction := true;
      atBegin := rows;
    }

    method Commit()
      modifies this
      ensures View() == old(View()) && !inTransaction
    {
      inTransaction := false;
    }

    method Rollback()
      modifies this
      ensures View() == old(View()).(rows := old(atBegin)) && !inTransaction
    {
      rows := atBegin;
      inTransaction := false;
    }

    /** `write_state_change` with the events that belong to it. */
    method WriteStateChange(c: StateChange, events: seq<Event>) returns (id: nat)
      modifies this
      ensures id == old(nextId) && inTransaction == old(inTransaction) && atBegin == old(atBegin)
      ensures View() == old(View()).(rows := old(rows) + [Row(id, c, events)], nextId := id + 1)
    {
      id := nextId;
      nextId := nextId + 1;
      rows := rows + [Row(id, c, events)];
    }

    method WriteSnapshot(s: Snapshot)
      modifies this
      ensures View() == old(View()).(snapshots := old(snapshots) + [s]) && inTransaction == old(inTransaction)
    {
      snapshots := snapshots + [s];
    }

    method GetSnapshotBefore(target: Option<nat>) returns (s: Option<Snapshot>)
      ensures s == SnapshotBefore(snapshots, target)
    {
      var n := |snapshots|;
      assert snapshots[..n] == snapshots;
      while n > 0
        invariant n <= |snapshots|
        invariant SnapshotBefore(snapshots[..n], target) == SnapshotBefore(snapshots, target)
      {
        var last := snapshots[n - 1];
        if target.None? || StartId(last) <= target.value { return Some(last); }
        assert snapshots[..n][..n - 1] == snapshots[..n - 1];
        n := n - 1;
      }
      s := None;
    }

    method GetStateChangesByRange(first: nat, last: Option<nat>) returns (found: seq<Row>)
      ensures found == InRange(rows, first, last)
    {
      found := [];
      assert rows[0..] == rows;
      for i := 0 to |rows|
        invariant found + InRange(rows[i..], first, last) == InRange(rows, first, last)
      {
        assert rows[i..][1..] == rows[i + 1..];
        if first <= rows[i].id && (last.None? || rows[i].id <= last.value) {
          found := found + [rows[i]];
        }
      }
    }
  }

  /** `replay_state_changes`. */
  method ReplayStateChanges(t: Transition, storage: Storage, from: Snapshot, target: Option<nat>)
    returns (s: Option<State>)
    ensures s == Replay(t, storage.View(), from, target)
  {
    var found := storage.GetStateChangesByRange(StartId(from), target);
    ghost var cs := Changes(found);
    var state := from.data;
    assert cs[0..] == cs;
    for i := 0 to |found|
      invariant Fold(t, state, cs[i..]) == Fold(t, from.data, cs)
    {
      assert cs[i..][0] == found[i].change && cs[i..][1..] == cs[i + 1..];
      var e := t(state, found[i].change);
      if e.Raises? { return None; }
      state := Value(e);
    }
    s := Some(state);
  }

  /** `restore_state`. */
  method Restore(t: Transition, storage: Storage, target: nat) returns (s: Option<State>)
    ensures s == RestoreState(t, storage.View(), Some(target))
  {
    var snapshot := storage.GetSnapshotBefore(Some(target));
    if snapshot.None? { return None; }
    s := ReplayStateChanges(t, storage, snapshot.value, Some(target));
  }

  /** The first `i` changes are dispatched, which left `d`, and written after the rows `before`. */
  ghost predicate Dispatched(t: Transition, start: Dispatcher, d: Dispatcher, cs: seq<StateChange>, i: nat, id: nat,
                             before: seq<Row>, rows: seq<Row>)
  {
    && i <= |cs| && |rows| == |before| + i
    && DispatchAll(t, start, cs) == DispatchAll(t, d, cs[i..])
    && rows + Written(t, d, cs[i..], id + i) == before + Written(t, start, cs, id)
  }

  lemma NothingDispatched(t: Transition, start: Dispatcher, cs: seq<StateChange>, id: nat, before: seq<Row>)
    ensures Dispatched(t, start, start, cs, 0, id, before, before)
  {
    assert cs[0..] == cs;
  }

  lemma DispatchedNext(t: Transition, start: Dispatcher, d: Dispatcher, cs: seq<StateChange>, i: nat, id: nat,
                       before: seq<Row>, rows: seq<Row>)
    requires Dispatched(t, start, d, cs, i, id, before, rows) && i < |cs| && Dispatch(t, d, cs[i]).Some?
    ensures Dispatched(t, start, Dispatch(t, d, cs[i]).value, cs, i + 1, id, before,
                       rows + [Row(id + i, cs[i], t(Current(d), cs[i]).events)])
  {
    assert cs[i..][0] == cs[i] && cs[i..][1..] == cs[i + 1..];
    var row := Row(id + i, cs[i], t(Current(d), cs[i]).events);
    var rest := Written(t, Dispatch(t, d, cs[i]).value, cs[i + 1..], id + i + 1);
    assert Written(t, d, cs[i..], id + i) == [row] + rest;
    assert (rows + [row]) + rest == rows + ([row] + rest);
  }

  lemma DispatchStops(t: Transition, start: Dispatcher, d: Dispatcher, cs: seq<StateChange>, i: nat, id: nat,
                      before: seq<Row>, rows: seq<Row>)
    requires Dispatched(t, start, d, cs, i, id, before, rows) && (i < |cs| ==> Dispatch(t, d, cs[i]).None?)
    ensures rows == before + Written(t, start, cs, id) && |Written(t, start, cs, id)| == i
    ensures DispatchAll(t, start, cs) == if i < |cs| then None else Some(d)
  {
    assert i < |cs| ==> cs[i..][0] == cs[i];
    assert Written(t, d, cs[i..], id + i) == [];
    assert rows + [] == rows;
  }

  class WriteAheadLog {
    const storage: Storage
    const transition: Transition
    var state: StateObject
    var saved: Option<nat>

    constructor (state: StateObject, storage: Storage, transition: Transition)
      ensures this.storage == storage && this.transition == transition && this.state == state && saved == None
    {
      this.state := state;
      this.storage := storage;
      this.transition := transition;
      saved := None;
    }

    function View(): Wal
      reads this, state, storage
    {
      Wal(storage.View(), state.value, saved)
    }

    /**
     One use of `process_state_change_atomically`.  The object that was the state
     is never written: the batch works on a clone, which replaces it on commit.
     */
    method ProcessAtomically(b: Batch) returns (ok: bool)
      requires !storage.inTransaction
      modifies this, storage
      ensures !storage.inTransaction && View() == Process(transition, old(View()), b)
      ensures ok <==> !b.fails && Installed(transition, old(state.value), b.changes).Some?
      ensures if ok then fresh(state) else state == old(state) && saved == old(saved)
    {
      var clone := new StateObject(state.value);
      storage.Begin();
      var current := clone;
      var lastId: Option<nat> := None;
      ghost var d := Dispatcher(state.value, None);
      ghost var start, id0, before := d, storage.nextId, storage.rows;
      NothingDispatched(transition, start, b.changes, id0, before);
      var i := 0;
      while i < |b.changes|
        invariant fresh(clone) && fresh(current) && storage.inTransaction
        invariant state == old(state) && saved == old(saved) && state.value == old(state.value)
        invariant clone.value == d.clone && (current == clone <==> d.detached.None?)
        invariant d.detached.Some? ==> current.value == d.detached.value
        invariant storage.atBegin == before && storage.snapshots == old(storage.snapshots)
        invariant storage.nextId == id0 + i && lastId == if i == 0 then None else Some(storage.nextId - 1)
        invariant Dispatched(transition, start, d, b.changes, i, id0, before, storage.rows)
      {
        var result, events := CallTransition(transition, current, b.changes[i]);
        if result.None? {
          DispatchStops(transition, start, d, b.changes, i, id0, before, storage.rows);
          storage.Rollback();
          return false;
        }
        DispatchedNext(transition, start, d, b.changes, i, id0, before, storage.rows);
        current := result.value;
        d := Dispatch(transition, d, b.changes[i]).value;
        var id := storage.WriteStateChange(b.changes[i], events);
        lastId := Some(id);
        i := i + 1;
      }
      DispatchStops(transition, start, d, b.changes, i, id0, before, storage.rows);
      if b.fails {
        storage.Rollback();
        return false;
      }
      storage.Commit();
      state := clone;
      if lastId.Some? { saved := lastId; }
      ok := true;
    }

    /** `snapshot`; raises while no batch with a change was committed. */
    method WriteStateSnapshot() returns (ok: bool)
      modifies storage
      ensures ok <==> TakeSnapshot(old(View())).Some?
      ensures View() == if ok then TakeSnapshot(old(View())).value else old(View())
    {
      if saved.None? { return false; }
      storage.WriteSnapshot(Snapshot(saved, state.value));
      ok := true;
    }
  }

  /** A restart: the newest snapshot, or the initial state as the first one, and a replay of the rest. */
  method StartNode(t: Transition, storage: Storage, initial: State) returns (w: Option<WriteAheadLog>)
    modifies storage
    ensures w.Some? <==> Restart(t, old(storage.View()), initial).Some?
    ensures w.Some? ==>
      && fresh(w.value) && w.value.storage == storage && w.value.transition == t
      && w.value.View() == Restart(t, old(storage.View()), initial).value
    ensures storage.inTransaction == old(storage.inTransaction)
  {
    var found := storage.GetSnapshotBefore(None);
    var from: Snapshot;
    if found.None? {
      from := Snapshot(None, initial);
      storage.WriteSnapshot(from);
    } else {
      from := found.value;
    }
    var s := ReplayStateChanges(t, storage, from, None);
    if s.None? { return None; }
    var state := new StateObject(s.value);
    var log := new WriteAheadLog(state, storage, t);
    w := Some(log);
  }
}
