/**
 * `OptimizedNodeOps`: the lazily built adjacency and liaison caches, the
 * four cached walks, the deselection of the liaisons and industrials met at
 * a set of nodes, and the bulk deselection of the upstream of discarded
 * branches.
 */
module NodeOps {
  import opened Common
  import opened Layers
  import opened Graph
  import opened Walks
  import opened Network

  type LiaisonMap = map<string, seq<Feature>>

  // ------------------------------------------------------------------
  // Liaisons and industrials met at nodes
  // ------------------------------------------------------------------

  /** The industrial id of a liaison when it is set and not INCONNU in any case. */
  function IndusOf(lf: Feature): (r: Option<string>)
    ensures r.Some? <==> Truthy(Attr(lf, "id_industriel")) && !IsUnknownCI(Attr(lf, "id_industriel").value)
    ensures r.Some? ==> r == Attr(lf, "id_industriel")
  {
    var iid := Attr(lf, "id_industriel");
    if Truthy(iid) && !IsUnknownCI(iid.value) then iid else None
  }

  /** `liaison_cache.get(node, [])` for a stripped, non-empty node, and nothing otherwise. */
  function AtNode(cache: LiaisonMap, n: string): seq<Feature> {
    if Strip(n) != "" then Lookup(cache, Strip(n)) else []
  }

  /** The ids of the cached liaisons at the nodes. */
  function LiaisonIdsAt(cache: LiaisonMap, nodes: set<string>): set<int> {
    set n, lf | n in nodes && lf in AtNode(cache, n) :: lf.fid
  }

  /** The industrial ids of the cached liaisons at the nodes. */
  function IndusIdsAt(cache: LiaisonMap, nodes: set<string>): set<string> {
    set n, lf | n in nodes && lf in AtNode(cache, n) && IndusOf(lf).Some? :: IndusOf(lf).value
  }

  function IndusValues(ls: seq<Feature>): set<string> {
    set lf | lf in ls && IndusOf(lf).Some? :: IndusOf(lf).value
  }

  lemma IndusIdsClean(cache: LiaisonMap, nodes: set<string>)
    ensures forall x :: x in IndusIdsAt(cache, nodes) ==> x != "" && !IsUnknownCI(x)
  {
  }

  lemma LiaisonIdsAdd(cache: LiaisonMap, nodes: set<string>, n: string)
    ensures LiaisonIdsAt(cache, nodes + {n}) == LiaisonIdsAt(cache, nodes) + FidsOf(AtNode(cache, n))
  {
  }

  lemma IndusIdsAdd(cache: LiaisonMap, nodes: set<string>, n: string)
    ensures IndusIdsAt(cache, nodes + {n}) == IndusIdsAt(cache, nodes) + IndusValues(AtNode(cache, n))
  {
  }

  /** The industrial features whose trimmed `id` is one of ids (`trim("id") IN (...)`). */
  function IndusFids(indus: LayerData, ids: set<string>): set<int> {
    set f | f in indus.features && Attr(f, "id").Some? && Trim(Attr(f, "id").value) in ids :: f.fid
  }

  /** The body of the inner `for lf in liaisons` loop. */
  method TakeLiaison(lf: Feature, lids0: set<int>, iids0: set<string>) returns (lids: set<int>, iids: set<string>)
    ensures lids == lids0 + {lf.fid}
    ensures iids == iids0 + (if IndusOf(lf).Some? then {IndusOf(lf).value} else {})
  {
    lids, iids := lids0 + {lf.fid}, iids0;
    // A missing `id_industriel` raises inside the `try` and is skipped, like NULL.
    var iid := Attr(lf, "id_industriel");
    if iid.Some? && iid.value != "" && Upper(iid.value) != INCONNU {
      iids := iids + {iid.value};
    }
  }

  /** The liaisons of one list, with their industrial ids. */
  method TakeLiaisons(ls: seq<Feature>, lids0: set<int>, iids0: set<string>) returns (lids: set<int>, iids: set<string>)
    ensures lids == lids0 + FidsOf(ls) && iids == iids0 + IndusValues(ls)
  {
    lids, iids := lids0, iids0;
    var j := 0;
    while j < |ls|
      invariant 0 <= j <= |ls|
      invariant lids == lids0 + FidsOf(ls[..j]) && iids == iids0 + IndusValues(ls[..j])
    {
      assert forall x :: x in ls[..j + 1] <==> x in ls[..j] || x == ls[j];
      lids, iids := TakeLiaison(ls[j], lids, iids);
      j := j + 1;
    }
    assert ls[..j] == ls;
  }

  /** One pass of the `for node in nodes` loop. */
  method TakeNode(cache: LiaisonMap, n: string, lids0: set<int>, iids0: set<string>) returns (lids: set<int>, iids: set<string>)
    ensures lids == lids0 + FidsOf(AtNode(cache, n)) && iids == iids0 + IndusValues(AtNode(cache, n))
  {
    lids, iids := lids0, iids0;
    var node := Strip(n);
    if node != "" {
      lids, iids := TakeLiaisons(Lookup(cache, node), lids, iids);
    }
  }

  /** The `for node in nodes` loop: liaison ids and industrial ids at the nodes. */
  method CollectAtNodes(cache: LiaisonMap, nodes: set<string>) returns (lids: set<int>, iids: set<string>)
    ensures lids == LiaisonIdsAt(cache, nodes) && iids == IndusIdsAt(cache, nodes)
  {
    lids, iids := {}, {};
    var rest := nodes;
    while rest != {}
      invariant rest <= nodes
      invariant lids == LiaisonIdsAt(cache, nodes - rest) && iids == IndusIdsAt(cache, nodes - rest)
      decreases |rest|
    {
      var n :| n in rest;
      LiaisonIdsAdd(cache, nodes - rest, n);
      IndusIdsAdd(cache, nodes - rest, n);
      assert nodes - (rest - {n}) == (nodes - rest) + {n};
      lids, iids := TakeNode(cache, n, lids, iids);
      rest := rest - {n};
    }
  }

  // ------------------------------------------------------------------
  // Branches and the bulk deselection plan
  // ------------------------------------------------------------------

  datatype BranchType = CanalBranch | FosseBranch | LiaisonBranch

  /** `(typ, fid, amont, indus)`: an edge arriving at the visited node, or a liaison there. */
  datatype Branch = Branch(typ: BranchType, fid: int, amont: Option<string>, indus: Option<string>)

  /** The upstream walk a bulk deselection runs: over the incoming cache, or over the dock's queries. */
  datatype Walker = Cached(cache: EdgeMap) | Queried(canal: Option<LayerData>, fosse: Option<LayerData>)

  /** `walk_upstream_mixed(amont)`: nothing for a falsy start, otherwise the walk from `str(amont)`, not stripped. */
  ghost function UpstreamWalk(w: Walker, amont: Option<string>): WalkOut {
    if !Truthy(amont) then WalkOut({}, {}, {})
    else match w
      case Cached(cache) => CachedWalk(cache, Up, Unrestricted, amont.value)
      case Queried(canal, fosse) => QueryWalk(canal, fosse, Up, Unrestricted, amont.value)
  }

  /** The sets a bulk deselection accumulates before deselecting. */
  datatype Removal = Removal(cids: set<int>, fids: set<int>, lids: set<int>, nodes: set<string>, indus: set<string>)

  /** What one branch adds when its fid is not chosen. */
  ghost function BranchRemoval(w: Walker, b: Branch): Removal {
    match b.typ
    case CanalBranch =>
      var u := UpstreamWalk(w, b.amont);
      Removal({b.fid} + u.cids, u.fids, {}, u.nodes, {})
    case FosseBranch =>
      var u := UpstreamWalk(w, b.amont);
      Removal(u.cids, {b.fid} + u.fids, {}, u.nodes, {})
    case LiaisonBranch =>
      Removal({}, {}, {b.fid}, {}, if Truthy(b.indus) then {b.indus.value} else {})
  }

  function Union(p: Removal, q: Removal): Removal {
    Removal(p.cids + q.cids, p.fids + q.fids, p.lids + q.lids, p.nodes + q.nodes, p.indus + q.indus)
  }

  /** The `for typ, fid, amont, indus in branches` loop. */
  ghost function BulkPlan(w: Walker, branches: seq<Branch>, chosen: set<int>): Removal
    decreases |branches|
  {
    if branches == [] then Removal({}, {}, {}, {}, {})
    else
      var p := BulkPlan(w, branches[..|branches| - 1], chosen);
      var b := branches[|branches| - 1];
      if b.fid in chosen then p else Union(p, BranchRemoval(w, b))
  }

  /** Whether a branch is discarded: its fid alone decides, whatever the branch type. */
  predicate Dropped(b: Branch, chosen: set<int>) { b.fid !in chosen }

  /** Membership in one accumulated set, for any of the five sets of a removal. */
  lemma {:induction false} PlanMember<T>(w: Walker, branches: seq<Branch>, chosen: set<int>, sel: Removal -> set<T>, x: T)
    requires sel(Removal({}, {}, {}, {}, {})) == {}
    requires forall p, q :: sel(Union(p, q)) == sel(p) + sel(q)
    ensures x in sel(BulkPlan(w, branches, chosen)) <==>
      exists i :: 0 <= i < |branches| && Dropped(branches[i], chosen) && x in sel(BranchRemoval(w, branches[i]))
    decreases |branches|
  {
    if branches != [] {
      var init := branches[..|branches| - 1];
      var last := |branches| - 1;
      PlanMember(w, init, chosen, sel, x);
      if x in sel(BulkPlan(w, branches, chosen)) {
        if x in sel(BulkPlan(w, init, chosen)) {
          var i :| 0 <= i < |init| && Dropped(init[i], chosen) && x in sel(BranchRemoval(w, init[i]));
          assert branches[i] == init[i];
        } else {
          assert Dropped(branches[last], chosen) && x in sel(BranchRemoval(w, branches[last]));
        }
      } else {
        forall i | 0 <= i < |branches| && Dropped(branches[i], chosen) ensures x !in sel(BranchRemoval(w, branches[i])) {
          if i < last {
            assert branches[i] == init[i];
          }
        }
      }
    }
  }

  /**
   * The plan holds what the discarded branches contribute and nothing else; in
   * particular a branch whose fid is chosen contributes nothing.
   */
  lemma BulkPlanMembers(w: Walker, branches: seq<Branch>, chosen: set<int>, x: int, y: string)
    ensures var p := BulkPlan(w, branches, chosen);
      (x in p.cids <==> exists i :: 0 <= i < |branches| && Dropped(branches[i], chosen) && x in BranchRemoval(w, branches[i]).cids) &&
      (x in p.fids <==> exists i :: 0 <= i < |branches| && Dropped(branches[i], chosen) && x in BranchRemoval(w, branches[i]).fids) &&
      (x in p.lids <==> exists i :: 0 <= i < |branches| && Dropped(branches[i], chosen) && x in BranchRemoval(w, branches[i]).lids) &&
      (y in p.nodes <==> exists i :: 0 <= i < |branches| && Dropped(branches[i], chosen) && y in BranchRemoval(w, branches[i]).nodes) &&
      (y in p.indus <==> exists i :: 0 <= i < |branches| && Dropped(branches[i], chosen) && y in BranchRemoval(w, branches[i]).indus)
  {
    PlanMember(w, branches, chosen, (r: Removal) => r.cids, x);
    PlanMember(w, branches, chosen, (r: Removal) => r.fids, x);
    PlanMember(w, branches, chosen, (r: Removal) => r.lids, x);
    PlanMember(w, branches, chosen, (r: Removal) => r.nodes, y);
    PlanMember(w, branches, chosen, (r: Removal) => r.indus, y);
  }

  /** Keeping every branch deselects nothing. */
  lemma {:induction false} BulkPlanAllChosen(w: Walker, branches: seq<Branch>, chosen: set<int>)
    requires forall i :: 0 <= i < |branches| ==> branches[i].fid in chosen
    ensures BulkPlan(w, branches, chosen) == Removal({}, {}, {}, {}, {})
    decreases |branches|
  {
    if branches != [] {
      BulkPlanAllChosen(w, branches[..|branches| - 1], chosen);
    }
  }

  /** The body of the branch loop for one branch, given the upstream walk of its `amont`. */
  method AddBranch(p0: Removal, b: Branch, chosen: set<int>, u: WalkOut) returns (p: Removal)
    ensures p == if b.fid in chosen then p0
      else Union(p0, match b.typ
        case CanalBranch => Removal({b.fid} + u.cids, u.fids, {}, u.nodes, {})
        case FosseBranch => Removal(u.cids, {b.fid} + u.fids, {}, u.nodes, {})
        case LiaisonBranch => Removal({}, {}, {b.fid}, {}, if Truthy(b.indus) then {b.indus.value} else {}))
  {
    p := p0;
    if b.fid !in chosen {
      if b.typ == CanalBranch {
        p := p.(cids := p.cids + {b.fid});
        p := Removal(p.cids + u.cids, p.fids + u.fids, p.lids, p.nodes + u.nodes, p.indus);
      } else if b.typ == FosseBranch {
        p := p.(fids := p.fids + {b.fid});
        p := Removal(p.cids + u.cids, p.fids + u.fids, p.lids, p.nodes + u.nodes, p.indus);
      } else {
        p := p.(lids := p.lids + {b.fid});
        if b.indus.Some? && b.indus.value != "" {
          p := p.(indus := p.indus + {b.indus.value});
        }
      }
    }
  }

  // ------------------------------------------------------------------
  // The cached walk
  // ------------------------------------------------------------------

  /** The body of the four `walk_*_optimized` methods once the cache is at hand. */
  method CachedWalkOn(ghost canal: Option<LayerData>, ghost fosse: Option<LayerData>, cache: EdgeMap, d: Dir, r: Restriction, start: string)
    returns (cids: set<int>, fids: set<int>, nodes: set<string>)
    requires cache == EdgeCache(canal, fosse, d)
    ensures WalkOut(cids, fids, nodes) == CachedWalk(cache, d, r, start)
    ensures r.OnSelection? ==> cids <= r.selC && fids <= r.selF
  {
    ghost var U := CacheUniverse(cache, d, start);
    CacheBounded(cache, d, start);
    EdgeCacheUnique(canal, fosse, d, U);
    cids, fids, nodes := WalkOn(AdjOf(cache), PushRule(d), r, start, U);
  }

  // ------------------------------------------------------------------
  // The class
  // ------------------------------------------------------------------

  predicate Distinct(a: VectorLayer?, b: VectorLayer?, c: VectorLayer?, d: VectorLayer?) {
    (a != null ==> a != b && a != c && a != d) && (b != null ==> b != c && b != d) && (c != null ==> c != d)
  }

  class OptimizedNodeOps {
    var canalLayer: VectorLayer?
    var fosseLayer: VectorLayer?
    var liaisonLayer: VectorLayer?
    var indusLayer: VectorLayer?
    var incomingCache: Option<EdgeMap>
    var outgoingCache: Option<EdgeMap>
    var liaisonByNode: Option<LiaisonMap>
    var indusFeatCache: Option<map<string, Feature>>

    /** The caches the current layers give. */
    function Incoming(): EdgeMap reads this { EdgeCache(DataOf(canalLayer), DataOf(fosseLayer), Up) }
    function Outgoing(): EdgeMap reads this { EdgeCache(DataOf(canalLayer), DataOf(fosseLayer), Down) }
    function Liaisons(): LiaisonMap reads this { LiaisonCache(DataOf(liaisonLayer)) }

    /** The four layers are distinct objects and every built cache is the one the layers give. */
    ghost predicate Valid()
      reads this
    {
      Distinct(canalLayer, fosseLayer, liaisonLayer, indusLayer) &&
      (incomingCache.Some? ==> incomingCache.value == Incoming()) &&
      (outgoingCache.Some? ==> outgoingCache.value == Outgoing()) &&
      (liaisonByNode.Some? ==> liaisonByNode.value == Liaisons())
    }

    twostate predicate LayersKept()
      reads this
    {
      canalLayer == old(canalLayer) && fosseLayer == old(fosseLayer) &&
      liaisonLayer == old(liaisonLayer) && indusLayer == old(indusLayer)
    }

    constructor (canal: VectorLayer?, fosse: VectorLayer?, liaison: VectorLayer?, indus: VectorLayer?)
      requires Distinct(canal, fosse, liaison, indus)
      ensures canalLayer == canal && fosseLayer == fosse && liaisonLayer == liaison && indusLayer == indus
      ensures incomingCache == None && outgoingCache == None && liaisonByNode == None && indusFeatCache == None
      ensures Valid()
    {
      canalLayer, fosseLayer, liaisonLayer, indusLayer := canal, fosse, liaison, indus;
      incomingCache, outgoingCache, liaisonByNode, indusFeatCache := None, None, None, None;
    }

    /** `invalidate_caches`: the four caches are dropped and nothing else changes. */
    method InvalidateCaches()
      modifies this
      ensures incomingCache == None && outgoingCache == None && liaisonByNode == None && indusFeatCache == None
      ensures LayersKept()
      ensures Distinct(canalLayer, fosseLayer, liaisonLayer, indusLayer) ==> Valid()
    {
      incomingCache, outgoingCache, liaisonByNode, indusFeatCache := None, None, None, None;
    }

    /** `build_incoming_cache`: the stored map when there is one, otherwise a fresh scan, stored. */
    method BuildIncomingCache() returns (cache: EdgeMap)
      requires Valid()
      modifies this
      ensures Valid() && LayersKept()
      ensures cache == Incoming() && incomingCache == Some(cache)
      ensures old(incomingCache).Some? ==> cache == old(incomingCache).value
      ensures outgoingCache == old(outgoingCache) && liaisonByNode == old(liaisonByNode) && indusFeatCache == old(indusFeatCache)
    {
      if incomingCache.Some? {
        return incomingCache.value;
      }
      cache := map[];
      cache := AddEdges(cache, Canal, Features(DataOf(canalLayer)), Up);
      cache := AddEdges(cache, Fosse, Features(DataOf(fosseLayer)), Up);
      incomingCache := Some(cache);
    }

    /** `build_outgoing_cache`. */
    method BuildOutgoingCache() returns (cache: EdgeMap)
      requires Valid()
      modifies this
      ensures Valid() && LayersKept()
      ensures cache == Outgoing() && outgoingCache == Some(cache)
      ensures old(outgoingCache).Some? ==> cache == old(outgoingCache).value
      ensures incomingCache == old(incomingCache) && liaisonByNode == old(liaisonByNode) && indusFeatCache == old(indusFeatCache)
    {
      if outgoingCache.Some? {
        return outgoingCache.value;
      }
      cache := map[];
      cache := AddEdges(cache, Canal, Features(DataOf(canalLayer)), Down);
      cache := AddEdges(cache, Fosse, Features(DataOf(fosseLayer)), Down);
      outgoingCache := Some(cache);
    }

    /** `build_liaison_cache`. */
    method BuildLiaisonCache() returns (cache: LiaisonMap)
      requires Valid()
      modifies this
      ensures Valid() && LayersKept()
      ensures cache == Liaisons() && liaisonByNode == Some(cache)
      ensures old(liaisonByNode).Some? ==> cache == old(liaisonByNode).value
      ensures incomingCache == old(incomingCache) && outgoingCache == old(outgoingCache) && indusFeatCache == old(indusFeatCache)
    {
      if liaisonByNode.Some? {
        return liaisonByNode.value;
      }
      cache := AddLiaisons(map[], Features(DataOf(liaisonLayer)));
      liaisonByNode := Some(cache);
    }

    /** `walk_upstream_mixed_optimized`: the start is used as given, not stripped. */
    method WalkUpstreamMixedOptimized(startNode: Option<string>) returns (cids: set<int>, fids: set<int>, nodes: set<string>)
      requires Valid()
      modifies this
      ensures Valid() && LayersKept() && Incoming() == old(Incoming())
      ensures outgoingCache == old(outgoingCache) && liaisonByNode == old(liaisonByNode) && indusFeatCache == old(indusFeatCache)
      ensures !Truthy(startNode) ==> cids == {} && fids == {} && nodes == {} && incomingCache == old(incomingCache)
      ensures Truthy(startNode) ==> WalkOut(cids, fids, nodes) == CachedWalk(Incoming(), Up, Unrestricted, startNode.value)
    {
      if !Truthy(startNode) {
        return {}, {}, {};
      }
      var cache := BuildIncomingCache();
      cids, fids, nodes := CachedWalkOn(DataOf(canalLayer), DataOf(fosseLayer), cache, Up, Unrestricted, startNode.value);
    }

    /** `walk_downstream_mixed_optimized`: from the stripped start. */
    method WalkDownstreamMixedOptimized(startNode: Option<string>) returns (cids: set<int>, fids: set<int>, nodes: set<string>)
      requires Valid()
      modifies this
      ensures Valid() && LayersKept() && Outgoing() == old(Outgoing())
      ensures incomingCache == old(incomingCache) && liaisonByNode == old(liaisonByNode) && indusFeatCache == old(indusFeatCache)
      ensures !Truthy(startNode) ==> cids == {} && fids == {} && nodes == {} && outgoingCache == old(outgoingCache)
      ensures Truthy(startNode) ==> WalkOut(cids, fids, nodes) == CachedWalk(Outgoing(), Down, Unrestricted, Strip(startNode.value))
    {
      if !Truthy(startNode) {
        return {}, {}, {};
      }
      var cache := BuildOutgoingCache();
      cids, fids, nodes := CachedWalkOn(DataOf(canalLayer), DataOf(fosseLayer), cache, Down, Unrestricted, Strip(startNode.value));
    }

    /** `walk_upstream_on_selected_optimized`: only selected edges are recorded and followed. */
    method WalkUpstreamOnSelectedOptimized(startNode: Option<string>, selC: set<int>, selF: set<int>)
      returns (cids: set<int>, fids: set<int>, nodes: set<string>)
      requires Valid()
      modifies this
      ensures Valid() && LayersKept() && Incoming() == old(Incoming())
      ensures outgoingCache == old(outgoingCache) && liaisonByNode == old(liaisonByNode) && indusFeatCache == old(indusFeatCache)
      ensures !Truthy(startNode) ==> cids == {} && fids == {} && nodes == {} && incomingCache == old(incomingCache)
      ensures Truthy(startNode) ==>
        WalkOut(cids, fids, nodes) == CachedWalk(Incoming(), Up, OnSelection(selC, selF), Strip(startNode.value))
      ensures cids <= selC && fids <= selF
    {
      if !Truthy(startNode) {
        return {}, {}, {};
      }
      var cache := BuildIncomingCache();
      cids, fids, nodes := CachedWalkOn(DataOf(canalLayer), DataOf(fosseLayer), cache, Up, OnSelection(selC, selF), Strip(startNode.value));
    }

    /** `walk_downstream_on_selected_optimized`. */
    method WalkDownstreamOnSelectedOptimized(startNode: Option<string>, selC: set<int>, selF: set<int>)
      returns (cids: set<int>, fids: set<int>, nodes: set<string>)
      requires Valid()
      modifies this
      ensures Valid() && LayersKept() && Outgoing() == old(Outgoing())
      ensures incomingCache == old(incomingCache) && liaisonByNode == old(liaisonByNode) && indusFeatCache == old(indusFeatCache)
      ensures !Truthy(startNode) ==> cids == {} && fids == {} && nodes == {} && outgoingCache == old(outgoingCache)
      ensures Truthy(startNode) ==>
        WalkOut(cids, fids, nodes) == CachedWalk(Outgoing(), Down, OnSelection(selC, selF), Strip(startNode.value))
      ensures cids <= selC && fids <= selF
    {
      if !Truthy(startNode) {
        return {}, {}, {};
      }
      var cache := BuildOutgoingCache();
      cids, fids, nodes := CachedWalkOn(DataOf(canalLayer), DataOf(fosseLayer), cache, Down, OnSelection(selC, selF), Strip(startNode.value));
    }

    /** The batch deselection of industrials: `trim("id") IN` the non-empty ids, when there is a layer and an id. */
    method DeselectIndus(removed: set<string>)
      modifies indusLayer
      ensures indusLayer != null ==> indusLayer.selected == old(indusLayer.selected) - IndusFids(indusLayer.data, removed - {""})
    {
      if indusLayer != null && removed != {} {
        var values := removed - {""};
        if values != {} {
          var remIds := IndusFids(indusLayer.data, values);
          if remIds != {} {
            indusLayer.Deselect(remIds);
          }
        }
      }
    }

    /**
     * `deselect_liaisons_and_indus_from_nodes_optimized`: the cached liaisons at
     * the nodes are deselected and their industrial ids returned and deselected.
     */
    method DeselectLiaisonsAndIndusFromNodesOptimized(nodes: set<string>) returns (removed: set<string>)
      requires Valid()
      modifies this, liaisonLayer, indusLayer
      ensures Valid() && LayersKept()
      ensures incomingCache == old(incomingCache) && outgoingCache == old(outgoingCache) && indusFeatCache == old(indusFeatCache)
      ensures nodes == {} || liaisonLayer == null ==>
        removed == {} && liaisonByNode == old(liaisonByNode) &&
        SelectionOf(liaisonLayer) == old(SelectionOf(liaisonLayer)) && SelectionOf(indusLayer) == old(SelectionOf(indusLayer))
      ensures nodes != {} && liaisonLayer != null ==>
        removed == IndusIdsAt(Liaisons(), nodes) &&
        liaisonLayer.selected == old(liaisonLayer.selected) - LiaisonIdsAt(Liaisons(), nodes) &&
        (indusLayer != null ==> indusLayer.selected == old(indusLayer.selected) - IndusFids(indusLayer.data, removed))
      ensures forall x :: x in removed ==> x != "" && !IsUnknownCI(x)
    {
      if nodes == {} || liaisonLayer == null {
        return {};
      }
      var cache := BuildLiaisonCache();
      var lids;
      lids, removed := CollectAtNodes(cache, nodes);
      IndusIdsClean(cache, nodes);
      if lids != {} {
        liaisonLayer.Deselect(lids);
      }
      assert removed - {""} == removed;
      DeselectIndus(removed);
    }

    /** The branch loop of the bulk deselection: what it will deselect. */
    method PlanBranches(branches: seq<Branch>, chosen: set<int>) returns (p: Removal)
      requires Valid()
      modifies this
      ensures Valid() && LayersKept()
      ensures outgoingCache == old(outgoingCache) && liaisonByNode == old(liaisonByNode) && indusFeatCache == old(indusFeatCache)
      ensures p == BulkPlan(Cached(Incoming()), branches, chosen)
    {
      p := Removal({}, {}, {}, {}, {});
      var i := 0;
      while i < |branches|
        invariant 0 <= i <= |branches|
        invariant Valid() && LayersKept()
        invariant outgoingCache == old(outgoingCache) && liaisonByNode == old(liaisonByNode) && indusFeatCache == old(indusFeatCache)
        invariant p == BulkPlan(Cached(Incoming()), branches[..i], chosen)
      {
        p := PlanBranch(branches, i, chosen, p);
        i := i + 1;
      }
      assert branches[..i] == branches;
    }

    /** One step of PlanBranches: branch i is added to the plan of the branches before it. */
    method PlanBranch(branches: seq<Branch>, i: nat, chosen: set<int>, p0: Removal) returns (p: Removal)
      requires Valid() && i < |branches|
      requires p0 == BulkPlan(Cached(Incoming()), branches[..i], chosen)
      modifies this
      ensures Valid() && LayersKept()
      ensures outgoingCache == old(outgoingCache) && liaisonByNode == old(liaisonByNode) && indusFeatCache == old(indusFeatCache)
      ensures p == BulkPlan(Cached(Incoming()), branches[..i + 1], chosen)
    {
      var b := branches[i];
      assert branches[..i + 1][..i] == branches[..i];
      var u := WalkOut({}, {}, {});
      if b.fid !in chosen && b.typ != LiaisonBranch {
        var c, f, n := WalkUpstreamMixedOptimized(b.amont);
        u := WalkOut(c, f, n);
      }
      p := AddBranch(p0, b, chosen, u);
    }

    /** The batch deselections that end the bulk deselection, for the accumulated sets p. */
    method DeselectRemoval(p: Removal, liaisonCache: LiaisonMap) returns (removedIndus: set<string>)
      requires Distinct(canalLayer, fosseLayer, liaisonLayer, indusLayer)
      modifies canalLayer, fosseLayer, liaisonLayer, indusLayer
      ensures removedIndus == p.indus + IndusIdsAt(liaisonCache, p.nodes)
      ensures SelectionOf(canalLayer) == old(SelectionOf(canalLayer)) - p.cids
      ensures SelectionOf(fosseLayer) == old(SelectionOf(fosseLayer)) - p.fids
      ensures SelectionOf(liaisonLayer) == old(SelectionOf(liaisonLayer)) - (p.lids + LiaisonIdsAt(liaisonCache, p.nodes))
      ensures indusLayer != null ==> indusLayer.selected == old(indusLayer.selected) - IndusFids(indusLayer.data, removedIndus - {""})
    {
      if canalLayer != null && p.cids != {} {
        canalLayer.Deselect(p.cids);
      }
      if fosseLayer != null && p.fids != {} {
        fosseLayer.Deselect(p.fids);
      }
      var lidsAt, iidsAt := CollectAtNodes(liaisonCache, p.nodes);
      var idsToUnselect := p.lids + lidsAt;
      removedIndus := p.indus + iidsAt;
      if liaisonLayer != null && idsToUnselect != {} {
        liaisonLayer.Deselect(idsToUnselect);
      }
      DeselectIndus(removedIndus);
    }

    /**
     * `bulk_deselect_unselected_branches_optimized`: the discarded branches and
     * their upstream are deselected, then the liaisons at every node met
     * upstream and the industrials they name; the industrial ids are returned.
     */
    method BulkDeselectUnselectedBranchesOptimized(startNode: string, branches: seq<Branch>, chosen: set<int>)
      returns (removedIndus: set<string>)
      requires Valid()
      modifies this, canalLayer, fosseLayer, liaisonLayer, indusLayer
      ensures Valid() && LayersKept()
      ensures outgoingCache == old(outgoingCache) && liaisonByNode == Some(Liaisons()) && indusFeatCache == old(indusFeatCache)
      ensures var p := BulkPlan(Cached(Incoming()), branches, chosen);
        removedIndus == p.indus + IndusIdsAt(Liaisons(), p.nodes) &&
        SelectionOf(canalLayer) == old(SelectionOf(canalLayer)) - p.cids &&
        SelectionOf(fosseLayer) == old(SelectionOf(fosseLayer)) - p.fids &&
        SelectionOf(liaisonLayer) == old(SelectionOf(liaisonLayer)) - (p.lids + LiaisonIdsAt(Liaisons(), p.nodes)) &&
        (indusLayer != null ==> indusLayer.selected == old(indusLayer.selected) - IndusFids(indusLayer.data, removedIndus - {""}))
    {
      var liaisonCache := BuildLiaisonCache();
      var p := PlanBranches(branches, chosen);
      removedIndus := DeselectRemoval(p, liaisonCache);
    }
  }
}
