/** A reference semantics for `AgentRegistry`, independent of its map: the
    registry is described by the history of `register` calls alone. `find(id)`
    is the last agent registered under `id`, and `list()` holds one agent per
    id that was ever registered, ordered by the id's first registration. */
module RegistryReference {
  import opened Wrappers
  import opened Agents
  import opened AgentRegistry

  /** The registry after registering the agents of `hist`, in order, from empty. */
  function Build(hist: seq<Agent>): (r: Registry)
    ensures Valid(r)
  {
    if |hist| == 0 then Empty() else Register(Build(hist[..|hist| - 1]), hist[|hist| - 1])
  }

  /** The last agent of `hist` whose id is `id`. */
  function LastWith(hist: seq<Agent>, id: string): (o: Option<Agent>)
    ensures o.Some? ==> o.value in hist && o.value.id == id
  {
    if |hist| == 0 then None
    else if hist[|hist| - 1].id == id then Some(hist[|hist| - 1])
    else LastWith(hist[..|hist| - 1], id)
  }

  /** Some agent of `hist` has id `id`. */
  ghost predicate Registered(hist: seq<Agent>, id: string) {
    exists k :: 0 <= k < |hist| && hist[k].id == id
  }

  /** `k` is where `id` was registered for the first time. */
  ghost predicate IsFirstIndex(hist: seq<Agent>, id: string, k: int) {
    && 0 <= k < |hist|
    && hist[k].id == id
    && forall m :: 0 <= m < k ==> hist[m].id != id
  }

  /** `LastWith` is absent exactly for ids never registered. */
  lemma {:induction false} LastWithAbsent(hist: seq<Agent>, id: string)
    ensures LastWith(hist, id).None? <==> !Registered(hist, id)
  {
    if |hist| > 0 {
      var p := hist[..|hist| - 1];
      LastWithAbsent(p, id);
      if Registered(p, id) {
        var k :| 0 <= k < |p| && p[k].id == id;
        assert hist[k].id == id;
      }
      if Registered(hist, id) && hist[|hist| - 1].id != id {
        var k :| 0 <= k < |hist| && hist[k].id == id;
        assert p[k].id == id;
      }
    }
  }

  /** The registry's keys are exactly the registered ids. */
  lemma {:induction false} BuildKeys(hist: seq<Agent>, id: string)
    ensures id in Build(hist).agents <==> Registered(hist, id)
  {
    LastWithAbsent(hist, id);
    BuildFind(hist, id);
  }

  /** `find` returns the last agent registered under the id: last write wins. */
  lemma {:induction false} BuildFind(hist: seq<Agent>, id: string)
    ensures Find(Build(hist), id) == LastWith(hist, id)
  {
    if |hist| > 0 {
      BuildFind(hist[..|hist| - 1], id);
    }
  }

  /** The first registration of an id already registered before the last
      call lies in the earlier history. */
  lemma FirstIndexInPrefix(hist: seq<Agent>, id: string, k: int)
    requires |hist| > 0
    requires Registered(hist[..|hist| - 1], id)
    requires IsFirstIndex(hist, id, k)
    ensures k < |hist| - 1 && IsFirstIndex(hist[..|hist| - 1], id, k)
  {
  }

  /** Ids in `o` appear in the order of their first registration in `hist`. */
  ghost predicate OrderedByFirst(hist: seq<Agent>, o: seq<string>) {
    forall i, j, ki, kj ::
      0 <= i < j < |o| && IsFirstIndex(hist, o[i], ki) && IsFirstIndex(hist, o[j], kj) ==> ki < kj
  }

  /** The keys of `r` are exactly the ids registered in `hist`. */
  ghost predicate KeysAre(hist: seq<Agent>, r: Registry) {
    forall id :: id in r.agents <==> Registered(hist, id)
  }

  /** One pair of ids after one more registration `x`: either both ids were
      known before, or the later one is the id `x` added. */
  lemma OrderStepPair(p: seq<Agent>, x: Agent, r: Registry, i: int, j: int, ki: int, kj: int)
    requires Valid(r) && KeysAre(p, r) && OrderedByFirst(p, r.order)
    requires 0 <= i < j < |Register(r, x).order|
    requires IsFirstIndex(p + [x], Register(r, x).order[i], ki)
    requires IsFirstIndex(p + [x], Register(r, x).order[j], kj)
    ensures ki < kj
  {
    var h, o := p + [x], Register(r, x).order;
    assert h[..|h| - 1] == p;
    assert o[i] == r.order[i];
    FirstIndexInPrefix(h, o[i], ki);
    if j < |r.order| {
      assert o[j] == r.order[j];
      FirstIndexInPrefix(h, o[j], kj);
    } else {
      // o[j] is the id `x` added, registered for the first time
      assert !Registered(p, o[j]);
    }
  }

  /** `list()` order: an id registered for the first time earlier comes first. */
  lemma {:induction false} BuildOrder(hist: seq<Agent>)
    ensures OrderedByFirst(hist, Build(hist).order)
  {
    if |hist| > 0 {
      var p, x := hist[..|hist| - 1], hist[|hist| - 1];
      var r := Build(p);
      BuildOrder(p);
      forall id
        ensures id in r.agents <==> Registered(p, id)
      {
        BuildKeys(p, id);
      }
      assert hist == p + [x];
      forall i, j, ki, kj |
        0 <= i < j < |Register(r, x).order| && IsFirstIndex(hist, Register(r, x).order[i], ki)
          && IsFirstIndex(hist, Register(r, x).order[j], kj)
        ensures ki < kj
      {
        OrderStepPair(p, x, r, i, j, ki, kj);
      }
    }
  }

  /** `list()` after any history of registrations: one agent per id ever
      registered, and that agent is the id's last registration. */
  lemma BuildListEntries(hist: seq<Agent>)
    ensures var l := List(Build(hist));
            && (forall i, j :: 0 <= i < j < |l| ==> l[i].id != l[j].id)
            && (forall i :: 0 <= i < |l| ==> Registered(hist, l[i].id) && LastWith(hist, l[i].id) == Some(l[i]))
            && (forall k :: 0 <= k < |hist| ==> hist[k].id in Build(hist).order)
  {
    var r := Build(hist);
    var l := List(r);
    forall i | 0 <= i < |l|
      ensures Registered(hist, l[i].id) && LastWith(hist, l[i].id) == Some(l[i])
    {
      BuildFind(hist, l[i].id);
      BuildKeys(hist, l[i].id);
    }
    forall k | 0 <= k < |hist|
      ensures hist[k].id in r.order
    {
      BuildKeys(hist, hist[k].id);
    }
  }

  /** `list()` after any history of registrations is ordered by first
      registration. */
  lemma BuildListOrder(hist: seq<Agent>)
    ensures var l := List(Build(hist));
            forall i, j, ki, kj ::
              0 <= i < j < |l| && IsFirstIndex(hist, l[i].id, ki) && IsFirstIndex(hist, l[j].id, kj) ==> ki < kj
  {
    BuildOrder(hist);
  }
}
