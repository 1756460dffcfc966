/**
 * The stack walk shared by every upstream and downstream walk of the plugin,
 * cached or not, over the whole network or restricted to the current
 * selection. An adjacency function gives the edges met at a node; the walk
 * pops a node, skips it when already seen, records the ids of the edges met
 * there (once per collection) and pushes each edge's far endpoint.
 */
module Walks {
  import opened Common
  import opened Layers
  import opened Graph

  /** The edges met at a node, canal edges and ditch edges in one list. */
  type Adjacency = string -> seq<TaggedEdge>

  /** Upstream walks advance to `idnini`, downstream walks to `idnterm`. */
  datatype Dir = Up | Down

  function FarField(d: Dir): string { if d == Up then "idnini" else "idnterm" }

  /** The walk keeps every edge, or only the edges of the given selections. */
  datatype Restriction = Unrestricted | OnSelection(selC: set<int>, selF: set<int>)

  /** The three sets a walk returns: canal ids, ditch ids, seen nodes. */
  datatype WalkOut = WalkOut(cids: set<int>, fids: set<int>, nodes: set<string>)

  predicate Admitted(r: Restriction, e: TaggedEdge) {
    r.Unrestricted? || (if e.kind == Canal then e.feat.fid in r.selC else e.feat.fid in r.selF)
  }

  /** The node pushed for an edge: `nxt = (feat[far] or "").strip()` when `nxt and nxt.upper() != 'INCONNU'`. */
  function NextOf(e: TaggedEdge, d: Dir): (r: Option<string>)
    ensures r.Some? ==> r.value != "" && !IsUnknownCI(r.value)
  {
    var n := Trimmed(e.feat, FarField(d));
    if n != "" && !IsUnknownCI(n) then Some(n) else None
  }

  predicate SameTag(a: TaggedEdge, b: TaggedEdge) {
    a.kind == b.kind && a.feat.fid == b.feat.fid
  }

  /** The ids of the admitted edges of one collection in a list. */
  function KindIds(edges: seq<TaggedEdge>, r: Restriction, k: Kind): set<int> {
    set e | e in edges && e.kind == k && Admitted(r, e) :: e.feat.fid
  }

  /** For each edge, the node a walk pushes after recording it, if any. */
  type NextFn = TaggedEdge -> Option<string>

  /** The push rule of the walks in direction d. */
  function PushRule(d: Dir): NextFn {
    e => NextOf(e, d)
  }

  /** The nodes pushed for a list of edges. */
  function NextSet(edges: seq<TaggedEdge>, next: NextFn, r: Restriction): set<string> {
    set e | e in edges && Admitted(r, e) && next(e).Some? :: next(e).value
  }

  function Successors(adj: Adjacency, next: NextFn, r: Restriction): Succ {
    n => NextSet(adj(n), next, r)
  }

  /** The ids of the admitted edges of one collection met at some node of nodes. */
  ghost function IdsAt(adj: Adjacency, r: Restriction, k: Kind, nodes: set<string>): set<int> {
    set n, e | n in nodes && e in adj(n) && e.kind == k && Admitted(r, e) :: e.feat.fid
  }

  /** No edge is listed twice, at one node of U or at two. */
  ghost predicate UniqueTags(adj: Adjacency, U: set<string>) {
    forall n1, n2, i1, i2 ::
      (n1 in U && n2 in U && 0 <= i1 < |adj(n1)| && 0 <= i2 < |adj(n2)| && SameTag(adj(n1)[i1], adj(n2)[i2])) ==>
        n1 == n2 && i1 == i2
  }

  /** Every pushed node lies in U. */
  ghost predicate Bounded(adj: Adjacency, next: NextFn, U: set<string>) {
    forall n, e :: e in adj(n) && next(e).Some? ==> next(e).value in U
  }

  lemma BoundedClosed(adj: Adjacency, next: NextFn, r: Restriction, U: set<string>)
    requires Bounded(adj, next, U)
    ensures Closed(Successors(adj, next, r), U)
  {
    forall n, m | n in U && m in Successors(adj, next, r)(n) ensures m in U {
      var e :| e in adj(n) && Admitted(r, e) && next(e).Some? && next(e).value == m;
    }
  }

  /** What a walk returns: the nodes reachable from the start, and the admitted ids met there. */
  ghost function WalkSpec(adj: Adjacency, next: NextFn, r: Restriction, start: string, U: set<string>): (w: WalkOut)
    requires start in U && Bounded(adj, next, U)
    ensures start in w.nodes
    ensures forall n :: n in w.nodes <==> Reaches(Successors(adj, next, r), start, n)
  {
    BoundedClosed(adj, next, r, U);
    var seen := ReachSet(Successors(adj, next, r), start, U);
    WalkOut(IdsAt(adj, r, Canal, seen), IdsAt(adj, r, Fosse, seen), seen)
  }

  lemma KindIdsSnoc(edges: seq<TaggedEdge>, e: TaggedEdge, r: Restriction, k: Kind)
    ensures KindIds(edges + [e], r, k) ==
      KindIds(edges, r, k) + (if e.kind == k && Admitted(r, e) then {e.feat.fid} else {})
  {
    assert forall x :: x in edges + [e] <==> x in edges || x == e;
  }

  lemma NextSetSnoc(edges: seq<TaggedEdge>, e: TaggedEdge, next: NextFn, r: Restriction)
    ensures NextSet(edges + [e], next, r) ==
      NextSet(edges, next, r) + (if Admitted(r, e) && next(e).Some? then {next(e).value} else {})
  {
    assert forall x :: x in edges + [e] <==> x in edges || x == e;
  }

  /** No edge of the list was recorded before, and no edge is listed twice. */
  predicate NewEdges(edges: seq<TaggedEdge>, cids0: set<int>, fids0: set<int>) {
    (forall i :: 0 <= i < |edges| ==> edges[i].feat.fid !in (if edges[i].kind == Canal then cids0 else fids0)) &&
    (forall i, j :: 0 <= i < j < |edges| ==> !SameTag(edges[i], edges[j]))
  }

  /** Whether the walk records an edge: admitted, and its id not recorded yet. */
  predicate Taken(e: TaggedEdge, r: Restriction, cids: set<int>, fids: set<int>) {
    Admitted(r, e) && e.feat.fid !in (if e.kind == Canal then cids else fids)
  }

  /** The body of the inner loop for one edge. */
  method TakeEdge(e: TaggedEdge, next: NextFn, r: Restriction, cids0: set<int>, fids0: set<int>, stack0: seq<string>)
    returns (cids: set<int>, fids: set<int>, stack: seq<string>)
    ensures cids == cids0 + (if e.kind == Canal && Admitted(r, e) then {e.feat.fid} else {})
    ensures fids == fids0 + (if e.kind == Fosse && Admitted(r, e) then {e.feat.fid} else {})
    ensures stack == if Taken(e, r, cids0, fids0) && next(e).Some? then stack0 + [next(e).value] else stack0
  {
    cids, fids, stack := cids0, fids0, stack0;
    var fid := e.feat.fid;
    var take := true;
    if e.kind == Canal {
      if (r.OnSelection? && fid !in r.selC) || fid in cids {
        take := false;
      } else {
        cids := cids + {fid};
      }
    } else {
      if (r.OnSelection? && fid !in r.selF) || fid in fids {
        take := false;
      } else {
        fids := fids + {fid};
      }
    }
    if take {
      var nxt := next(e);
      if nxt.Some? {
        stack := stack + [nxt.value];
      }
    }
  }

  lemma TakenWhenNew(edges: seq<TaggedEdge>, j: nat, r: Restriction, cids0: set<int>, fids0: set<int>)
    requires NewEdges(edges, cids0, fids0) && j < |edges| && Admitted(r, edges[j])
    ensures Taken(edges[j], r, cids0 + KindIds(edges[..j], r, Canal), fids0 + KindIds(edges[..j], r, Fosse))
  {
    var e := edges[j];
    forall x | x in edges[..j] ensures !SameTag(x, e) {
      var i :| 0 <= i < j && edges[i] == x;
    }
  }

  /** One turn of the inner loop, with the loop's invariant before and after it. */
  method ExpandOne(edges: seq<TaggedEdge>, j: nat, next: NextFn, r: Restriction, cids0: set<int>, fids0: set<int>, stack0: seq<string>,
                   cids: set<int>, fids: set<int>, stack: seq<string>)
    returns (cids': set<int>, fids': set<int>, stack': seq<string>)
    requires j < |edges|
    requires cids == cids0 + KindIds(edges[..j], r, Canal) && fids == fids0 + KindIds(edges[..j], r, Fosse)
    requires forall m :: m in stack ==> m in stack0 || m in NextSet(edges, next, r)
    requires NewEdges(edges, cids0, fids0) ==> forall m :: m in NextSet(edges[..j], next, r) ==> m in stack
    ensures cids' == cids0 + KindIds(edges[..j + 1], r, Canal) && fids' == fids0 + KindIds(edges[..j + 1], r, Fosse)
    ensures forall m :: m in stack ==> m in stack'
    ensures forall m :: m in stack' ==> m in stack0 || m in NextSet(edges, next, r)
    ensures NewEdges(edges, cids0, fids0) ==> forall m :: m in NextSet(edges[..j + 1], next, r) ==> m in stack'
  {
    var e := edges[j];
    assert edges[..j + 1] == edges[..j] + [e];
    KindIdsSnoc(edges[..j], e, r, Canal);
    KindIdsSnoc(edges[..j], e, r, Fosse);
    NextSetSnoc(edges[..j], e, next, r);
    if NewEdges(edges, cids0, fids0) && Admitted(r, e) {
      TakenWhenNew(edges, j, r, cids0, fids0);
    }
    cids', fids', stack' := TakeEdge(e, next, r, cids, fids, stack);
    assert forall m :: m in stack' ==> m in stack || (next(e).Some? && m == next(e).value);
  }

  /**
   * One expansion: the inner `for typ, layer, feat in edges` loop. An edge whose
   * id was already recorded (or, on a restricted walk, is not selected) is
   * skipped and its far endpoint is not pushed.
   */
  method Expand(edges: seq<TaggedEdge>, next: NextFn, r: Restriction, cids0: set<int>, fids0: set<int>, stack0: seq<string>)
    returns (cids: set<int>, fids: set<int>, stack: seq<string>)
    ensures cids == cids0 + KindIds(edges, r, Canal) && fids == fids0 + KindIds(edges, r, Fosse)
    ensures forall m :: m in stack0 ==> m in stack
    ensures forall m :: m in stack ==> m in stack0 || m in NextSet(edges, next, r)
    ensures NewEdges(edges, cids0, fids0) ==> forall m :: m in NextSet(edges, next, r) ==> m in stack
  {
    cids, fids, stack := cids0, fids0, stack0;
    ghost var isNew := NewEdges(edges, cids0, fids0);
    var j := 0;
    while j < |edges|
      invariant 0 <= j <= |edges|
      invariant cids == cids0 + KindIds(edges[..j], r, Canal) && fids == fids0 + KindIds(edges[..j], r, Fosse)
      invariant forall m :: m in stack0 ==> m in stack
      invariant forall m :: m in stack ==> m in stack0 || m in NextSet(edges, next, r)
      invariant isNew ==> forall m :: m in NextSet(edges[..j], next, r) ==> m in stack
    {
      cids, fids, stack := ExpandOne(edges, j, next, r, cids0, fids0, stack0, cids, fids, stack);
      j := j + 1;
    }
    assert edges[..j] == edges;
  }

  lemma IdsAtAdd(adj: Adjacency, r: Restriction, k: Kind, seen: set<string>, cur: string)
    ensures IdsAt(adj, r, k, seen + {cur}) == IdsAt(adj, r, k, seen) + KindIds(adj(cur), r, k)
  {
  }

  /** Under unique tags, no edge met at a new node was recorded at an earlier one. */
  lemma FreshAt(adj: Adjacency, r: Restriction, seen: set<string>, cur: string, U: set<string>)
    requires UniqueTags(adj, U) && seen <= U && cur in U && cur !in seen
    ensures NewEdges(adj(cur), IdsAt(adj, r, Canal, seen), IdsAt(adj, r, Fosse, seen))
  {
    forall i | 0 <= i < |adj(cur)|
      ensures adj(cur)[i].feat.fid !in (if adj(cur)[i].kind == Canal then IdsAt(adj, r, Canal, seen) else IdsAt(adj, r, Fosse, seen))
    {
    }
  }

  /** One turn of the walk at a popped node not seen yet, with the walk's invariant before and after it. */
  method WalkStep(adj: Adjacency, next: NextFn, r: Restriction, start: string, ghost U: set<string>, cur: string,
                  cids: set<int>, fids: set<int>, seen: set<string>, stack: seq<string>)
    returns (cids': set<int>, fids': set<int>, seen': set<string>, stack': seq<string>)
    requires Bounded(adj, next, U) && cur in U && cur !in seen && Reaches(Successors(adj, next, r), start, cur)
    requires seen <= U && forall m :: m in stack ==> m in U
    requires forall m :: m in stack ==> Reaches(Successors(adj, next, r), start, m)
    requires cids == IdsAt(adj, r, Canal, seen) && fids == IdsAt(adj, r, Fosse, seen)
    requires UniqueTags(adj, U) ==>
      forall n, m :: n in seen && m in NextSet(adj(n), next, r) ==> m in seen || m in stack || m == cur
    ensures seen' == seen + {cur} && forall m :: m in stack ==> m in stack'
    ensures forall m :: m in stack' ==> m in U && Reaches(Successors(adj, next, r), start, m)
    ensures cids' == IdsAt(adj, r, Canal, seen') && fids' == IdsAt(adj, r, Fosse, seen')
    ensures UniqueTags(adj, U) ==> forall n, m :: n in seen' && m in NextSet(adj(n), next, r) ==> m in seen' || m in stack'
  {
    ghost var S := Successors(adj, next, r);
    seen' := seen + {cur};
    if UniqueTags(adj, U) {
      FreshAt(adj, r, seen, cur, U);
    }
    IdsAtAdd(adj, r, Canal, seen, cur);
    IdsAtAdd(adj, r, Fosse, seen, cur);
    cids', fids', stack' := Expand(adj(cur), next, r, cids, fids, stack);
    forall m | m in stack' ensures m in U && Reaches(S, start, m) {
      if m !in stack {
        assert m in S(cur);
        ReachesStep(S, start, cur, m);
      }
    }
  }

  /**
   * The walk: `stack = [start]`, then pop, skip seen nodes, expand. Every
   * node it returns is reachable from the start and the ids are exactly those
   * met at the returned nodes; when no edge is listed twice within U it returns exactly
   * the reachable nodes.
   */
  method WalkOn(adj: Adjacency, next: NextFn, r: Restriction, start: string, ghost U: set<string>)
    returns (cids: set<int>, fids: set<int>, seen: set<string>)
    requires start in U && Bounded(adj, next, U)
    ensures start in seen
    ensures forall n :: n in seen ==> Reaches(Successors(adj, next, r), start, n)
    ensures cids == IdsAt(adj, r, Canal, seen) && fids == IdsAt(adj, r, Fosse, seen)
    ensures UniqueTags(adj, U) ==> WalkOut(cids, fids, seen) == WalkSpec(adj, next, r, start, U)
  {
    ghost var S := Successors(adj, next, r);
    seen, cids, fids := {}, {}, {};
    var stack := [start];
    ReachesRefl(S, start);
    while stack != []
      invariant seen <= U && forall m :: m in stack ==> m in U
      invariant forall n :: n in seen ==> Reaches(S, start, n)
      invariant forall m :: m in stack ==> Reaches(S, start, m)
      invariant start in seen || start in stack
      invariant cids == IdsAt(adj, r, Canal, seen) && fids == IdsAt(adj, r, Fosse, seen)
      invariant UniqueTags(adj, U) ==> forall n, m :: n in seen && m in NextSet(adj(n), next, r) ==> m in seen || m in stack
      decreases U - seen, |stack|
    {
      var cur := stack[|stack| - 1];
      ghost var popped := stack;
      stack := stack[..|stack| - 1];
      assert forall m :: m in popped <==> m in stack || m == cur;
      if cur in seen {
        continue;
      }
      cids, fids, seen, stack := WalkStep(adj, next, r, start, U, cur, cids, fids, seen, stack);
    }
    if UniqueTags(adj, U) {
      assert Closed(S, seen);
      ClosedHoldsReach(S, start, seen);
      BoundedClosed(adj, next, r, U);
      assert seen == ReachSet(S, start, U);
    }
  }
}
