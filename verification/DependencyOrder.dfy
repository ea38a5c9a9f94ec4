/** The layered ordering of requirement files (`_resolve_deps` in `tools/pip-compile-wrapper.py`). */
module DependencyOrder {
  import opened Options

  type Name(==, !new)

  /** The sources that are asked for and have an entry. */
  function Sources(all: map<Name, set<Name>>, names: set<Name>): set<Name> { all.Keys * names }

  /** The dependencies that are asked for as well. */
  function Needs(all: map<Name, set<Name>>, names: set<Name>, s: Name): set<Name> {
    if s in all then all[s] * names else {}
  }

  function Members(order: seq<Name>): set<Name> { set s | s in order }

  /** Each entry depends only on earlier ones, and no entry comes twice. */
  ghost predicate IsOrder(all: map<Name, set<Name>>, names: set<Name>, order: seq<Name>) {
    && Members(order) <= Sources(all, names)
    && (forall i, j :: 0 <= i < j < |order| ==> order[i] != order[j])
    && (forall i :: 0 <= i < |order| ==> Needs(all, names, order[i]) <= Members(order[..i]))
  }

  /** Each of these sources needs another of them, or a name that has no entry. */
  ghost predicate Stuck(all: map<Name, set<Name>>, names: set<Name>, t: set<Name>) {
    && t != {} && t <= Sources(all, names)
    && forall s :: s in t ==> Blocked(all, names, t, s)
  }

  /** `s` cannot be reached while `t` is open. */
  ghost predicate Blocked(all: map<Name, set<Name>>, names: set<Name>, t: set<Name>, s: Name) {
    exists n :: n in Needs(all, names, s) && (n in t || n !in all)
  }

  /** An order of all sources and a stuck set exclude each other. */
  lemma OrderIsNotStuck(all: map<Name, set<Name>>, names: set<Name>, order: seq<Name>, t: set<Name>)
    requires IsOrder(all, names, order) && Members(order) == Sources(all, names)
    ensures !Stuck(all, names, t)
  {
    if t != {} && t <= Sources(all, names) {
      var s :| s in t;
      assert s in Members(order);
      var i := FirstOf(order, t, s);
      forall n | n in Needs(all, names, order[i]) ensures n !in t && n in all {
        assert n in Members(order[..i]);
        var j :| 0 <= j < i && order[j] == n;
        assert order[j] in Members(order);
      }
      assert !Blocked(all, names, t, order[i]);
    }
  }

  lemma FirstOf(order: seq<Name>, t: set<Name>, s: Name) returns (i: nat)
    requires s in t && s in order
    ensures i < |order| && order[i] in t && forall j :: 0 <= j < i ==> order[j] !in t
  {
    i := 0;
    while order[i] !in t
      invariant i < |order| && s in order[i..] && forall j :: 0 <= j < i ==> order[j] !in t
      decreases |order| - i
    {
      assert order[i..] == [order[i]] + order[i + 1..];
      i := i + 1;
    }
  }

  /** The sources of the layer can be appended to the order. */
  ghost predicate Fits(all: map<Name, set<Name>>, names: set<Name>, order: seq<Name>, layer: set<Name>) {
    && IsOrder(all, names, order) && layer !! Members(order)
    && forall s :: s in layer ==> s in Sources(all, names) && Needs(all, names, s) <= Members(order)
  }

  lemma FitsOnward(all: map<Name, set<Name>>, names: set<Name>, order: seq<Name>, layer: set<Name>, s: Name)
    requires Fits(all, names, order, layer) && s in layer
    ensures Fits(all, names, order + [s], layer - {s})
    ensures Members(order + [s]) + (layer - {s}) == Members(order) + layer && |layer - {s}| < |layer|
  {
    Appended(all, names, order, s);
    forall x | x in layer - {s} ensures Needs(all, names, x) <= Members(order + [s]) {
      assert Needs(all, names, x) <= Members(order);
    }
  }

  /** Appends a set in any order. */
  method Extend(order: seq<Name>, layer: set<Name>, ghost all: map<Name, set<Name>>, ghost names: set<Name>)
    returns (r: seq<Name>)
    requires Fits(all, names, order, layer)
    ensures IsOrder(all, names, r) && Members(r) == Members(order) + layer
  {
    r := order;
    var rest := layer;
    while rest != {}
      invariant Fits(all, names, r, rest) && Members(r) + rest == Members(order) + layer
      decreases |rest|
    {
      var s :| s in rest;
      FitsOnward(all, names, r, rest, s);
      r, rest := r + [s], rest - {s};
    }
  }

  lemma Appended(all: map<Name, set<Name>>, names: set<Name>, order: seq<Name>, s: Name)
    requires IsOrder(all, names, order) && s in Sources(all, names) && s !in Members(order)
    requires Needs(all, names, s) <= Members(order)
    ensures IsOrder(all, names, order + [s]) && Members(order + [s]) == Members(order) + {s}
  {
    var r := order + [s];
    forall i | 0 <= i < |r| ensures Needs(all, names, r[i]) <= Members(r[..i]) {
      if i < |order| { assert r[..i] == order[..i]; } else { assert r[..i] == order; }
    }
  }

  /**
   Peels off the sources whose needs are met, layer by layer.  It raises exactly
   when some sources are stuck, and otherwise orders all of them.
   */
  method ResolveDeps(all: map<Name, set<Name>>, names: set<Name>) returns (solution: Option<seq<Name>>)
    ensures solution.Some? ==> IsOrder(all, names, solution.value) && Members(solution.value) == Sources(all, names)
    ensures solution.None? <==> exists t :: Stuck(all, names, t)
  {
    var requirements := map s | s in all && s in names :: all[s] * names;
    var order: seq<Name> := [];
    while requirements != map[]
      invariant IsOrder(all, names, order) && Remaining(all, names, Members(order), requirements)
      decreases |requirements|
    {
      var satisfied := set s | s in requirements && requirements[s] == {};
      if satisfied == {} {
        assert forall s :: s in requirements ==> (requirements[s] == {} ==> s in satisfied);
        RemainderIsStuck(all, names, Members(order), requirements);
        return None;
      }
      order, requirements := PeelLayer(all, names, order, requirements, satisfied);
    }
    forall t ensures !Stuck(all, names, t) { OrderIsNotStuck(all, names, order, t); }
    solution := Some(order);
  }

  /** Moves one layer from the requirements to the order and takes it out of the other dependencies. */
  method PeelLayer(ghost all: map<Name, set<Name>>, ghost names: set<Name>, order: seq<Name>,
                   requirements: map<Name, set<Name>>, satisfied: set<Name>)
    returns (longer: seq<Name>, rest: map<Name, set<Name>>)
    requires IsOrder(all, names, order) && Remaining(all, names, Members(order), requirements)
    requires satisfied != {} && forall s :: s in satisfied ==> s in requirements && requirements[s] == {}
    ensures IsOrder(all, names, longer) && Remaining(all, names, Members(longer), rest)
    ensures |rest| < |requirements|
  {
    rest := map s | s in requirements && s !in satisfied :: requirements[s] - satisfied;
    assert rest.Keys == requirements.Keys - satisfied;
    LayerDone(all, names, Members(order), requirements, satisfied, rest);
    forall s | s in satisfied ensures Needs(all, names, s) <= Members(order) {
      NeedsAreMet(all, names, Members(order), requirements, s);
    }
    longer := Extend(order, satisfied, all, names);
  }

  /** What is left to do once the sources in `done` are ordered. */
  ghost predicate Remaining(all: map<Name, set<Name>>, names: set<Name>, done: set<Name>,
                            requirements: map<Name, set<Name>>)
  {
    && done <= Sources(all, names) && requirements.Keys == Sources(all, names) - done
    && forall s :: s in requirements ==> requirements[s] == Needs(all, names, s) - done
  }

  lemma NeedsAreMet(all: map<Name, set<Name>>, names: set<Name>, done: set<Name>, requirements: map<Name, set<Name>>,
                    s: Name)
    requires Remaining(all, names, done, requirements) && s in requirements && requirements[s] == {}
    ensures Needs(all, names, s) <= done
  {
    var needs := Needs(all, names, s);
    forall n | n in needs ensures n in done {
      assert n in needs - done || n in done;
    }
  }

  lemma NeedsShrink(needs: set<Name>, done: set<Name>, satisfied: set<Name>)
    ensures (needs - done) - satisfied == needs - (done + satisfied)
  {
  }

  lemma LayerDone(all: map<Name, set<Name>>, names: set<Name>, done: set<Name>, requirements: map<Name, set<Name>>,
                  satisfied: set<Name>, next: map<Name, set<Name>>)
    requires Remaining(all, names, done, requirements)
    requires satisfied != {} && satisfied <= requirements.Keys && next.Keys == requirements.Keys - satisfied
    requires forall s :: s in next ==> next[s] == requirements[s] - satisfied
    ensures Remaining(all, names, done + satisfied, next) && |next| < |requirements|
  {
    SmallerMap(requirements, next, satisfied);
    forall s | s in next ensures next[s] == Needs(all, names, s) - (done + satisfied) {
      NeedsShrink(Needs(all, names, s), done, satisfied);
    }
  }

  lemma RemainderIsStuck(all: map<Name, set<Name>>, names: set<Name>, done: set<Name>,
                         requirements: map<Name, set<Name>>)
    requires Remaining(all, names, done, requirements) && requirements != map[]
    requires forall s :: s in requirements ==> requirements[s] != {}
    ensures Stuck(all, names, requirements.Keys)
  {
    forall s | s in requirements.Keys ensures Blocked(all, names, requirements.Keys, s) {
      var n :| n in requirements[s];
      assert n in Needs(all, names, s) && n !in done;
    }
  }

  lemma SmallerMap(a: map<Name, set<Name>>, b: map<Name, set<Name>>, dropped: set<Name>)
    requires b.Keys == a.Keys - dropped && dropped <= a.Keys && dropped != {}
    ensures |b| < |a|
  {
    assert a.Keys == b.Keys + dropped;
  }
}
