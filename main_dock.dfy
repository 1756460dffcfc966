/**
 * The dock's visit logic. A visit records a node, lists the branches that
 * arrive there, deselects the upstream of the discarded branches and, when
 * pollution is confirmed, purges the selection down to the KEEP set: the
 * kept branches and their upstream on the selection. The dock also keeps
 * the legacy walks and deselections that query the layers at every node.
 * The answers of the two dialogs are parameters.
 */
module MainDock {
  import opened Common
  import opened Layers
  import opened Walks
  import opened Network
  import opened NodeOps
  import opened IndustrialTable
  import opened Ordering
  import opened Diagnostics

  // ------------------------------------------------------------------
  // Inversion label
  // ------------------------------------------------------------------

  /**
   * `_map_inversion_label(code)`: the label of the stripped code; an empty
   * or unknown code reads "Inversion à vérifier". It is the status the
   * diagnostics give from an `inversion` field holding the same code.
   */
  function MapInversionLabel(code: Option<string>): (r: string)
    ensures r == Unchecked <==> !MappedCode(Strip(AsStr(code)))
    ensures forall f :: Attr(f, "inversion") == code ==> r == Status(true, f)
  {
    var c := Strip(AsStr(code));
    InversionLabelIff(c, c);
    if c == "" then Unchecked else InversionLabel(c)
  }

  // ------------------------------------------------------------------
  // Nodes of listed edges
  // ------------------------------------------------------------------

  /** Both ends of a listed edge, as stored, when set and not exactly INCONNU. */
  function EndNodes(f: Feature): set<string> {
    (if UsableEnd(Attr(f, "idnini")) then {Attr(f, "idnini").value} else {}) +
    (if UsableEnd(Attr(f, "idnterm")) then {Attr(f, "idnterm").value} else {})
  }

  function IdNodes(fs: seq<Feature>): set<string> {
    set f, n | f in fs && n in EndNodes(f) :: n
  }

  /** The start field's stripped text, when it is not empty. */
  function StartNodes(startText: string): set<string> {
    if Strip(startText) != "" then {Strip(startText)} else {}
  }

  /** What `_collect_nodes_from_ids` returns; the direction flag does not enter. */
  function CollectedNodes(canal: Option<LayerData>, fosse: Option<LayerData>, canalIds: seq<int>, fosseIds: seq<int>, startText: string): set<string> {
    LayerNodes(canal, canalIds) + LayerNodes(fosse, fosseIds) + StartNodes(startText)
  }

  /** The nodes of one layer's listed edges: nothing without the layer or without ids. */
  function LayerNodes(l: Option<LayerData>, ids: seq<int>): set<string> {
    if l.Some? && ids != [] then IdNodes(FeaturesWithFids(l.value.features, Elems(ids))) else {}
  }

  /** The nodes one layer contributes: the usable ends of its listed edges. */
  lemma IdNodesIff(fs: seq<Feature>, n: string)
    ensures n in IdNodes(fs) <==>
      n != "" && n != INCONNU && exists f :: f in fs && (Attr(f, "idnini") == Some(n) || Attr(f, "idnterm") == Some(n))
  {
    if n != "" && n != INCONNU && exists f :: f in fs && (Attr(f, "idnini") == Some(n) || Attr(f, "idnterm") == Some(n)) {
      var f :| f in fs && (Attr(f, "idnini") == Some(n) || Attr(f, "idnterm") == Some(n));
      assert n in EndNodes(f);
    }
  }

  lemma LayerNodesIff(l: Option<LayerData>, ids: seq<int>, n: string)
    ensures n in LayerNodes(l, ids) <==>
      n != "" && n != INCONNU && exists f :: f in Features(l) && f.fid in ids && (Attr(f, "idnini") == Some(n) || Attr(f, "idnterm") == Some(n))
  {
    if l.Some? {
      IdNodesIff(FeaturesWithFids(l.value.features, Elems(ids)), n);
      if exists f :: f in Features(l) && f.fid in ids {
        assert ids != [];
      }
    }
  }

  /** The collected nodes are the usable ends of the listed edges, plus the non-empty stripped start. */
  lemma CollectedNodesIff(canal: Option<LayerData>, fosse: Option<LayerData>, canalIds: seq<int>, fosseIds: seq<int>, startText: string, n: string)
    ensures n in CollectedNodes(canal, fosse, canalIds, fosseIds, startText) <==>
      (n != "" && n == Strip(startText)) ||
      (n != "" && n != INCONNU && exists f :: f in Features(canal) && f.fid in canalIds && (Attr(f, "idnini") == Some(n) || Attr(f, "idnterm") == Some(n))) ||
      (n != "" && n != INCONNU && exists f :: f in Features(fosse) && f.fid in fosseIds && (Attr(f, "idnini") == Some(n) || Attr(f, "idnterm") == Some(n)))
  {
    LayerNodesIff(canal, canalIds, n);
    LayerNodesIff(fosse, fosseIds, n);
  }

  lemma IdNodesSnoc(fs: seq<Feature>, i: nat)
    requires i < |fs|
    ensures IdNodes(fs[..i + 1]) == IdNodes(fs[..i]) + EndNodes(fs[i])
  {
    assert forall f :: f in fs[..i + 1] <==> f in fs[..i] || f == fs[i];
  }

  lemma UnionRegroup(a: set<string>, b: set<string>, c: set<string>)
    ensures a + b + c == a + (b + c)
  {
  }

  /** The body of the loop for one feature: its usable ends are added, in the order the flag gives. */
  method AddEnds(f: Feature, downstream: bool, nodes0: set<string>) returns (nodes: set<string>)
    ensures nodes == nodes0 + EndNodes(f)
  {
    nodes := nodes0;
    var nid := if downstream then Attr(f, "idnterm") else Attr(f, "idnini");
    if UsableEnd(nid) {
      nodes := nodes + {nid.value};
    }
    var nid2 := if downstream then Attr(f, "idnini") else Attr(f, "idnterm");
    if UsableEnd(nid2) {
      nodes := nodes + {nid2.value};
    }
  }

  /** The loop over one layer's listed features; the flag only decides which end is added first. */
  method AddEndNodes(fs: seq<Feature>, downstream: bool, nodes0: set<string>) returns (nodes: set<string>)
    ensures nodes == nodes0 + IdNodes(fs)
  {
    nodes := nodes0;
    var i := 0;
    while i < |fs|
      invariant 0 <= i <= |fs|
      invariant nodes == nodes0 + IdNodes(fs[..i])
    {
      nodes := AddEnds(fs[i], downstream, nodes);
      IdNodesSnoc(fs, i);
      UnionRegroup(nodes0, IdNodes(fs[..i]), EndNodes(fs[i]));
      i := i + 1;
    }
    assert fs[..i] == fs;
  }

  // ------------------------------------------------------------------
  // Branches at a visited node
  // ------------------------------------------------------------------

  /** `trim("idnterm") = node AND trim("idnini") != 'INCONNU'`: NULL fails both tests. */
  predicate IncomingAt(f: Feature, node: string) {
    TrimEquals(f, "idnterm", node) && Attr(f, "idnini").Some? && Trim(Attr(f, "idnini").value) != INCONNU
  }

  /** The canal or ditch branches: the incoming edges, each with its stored `idnini` as `amont`. */
  function EdgeBranches(fs: seq<Feature>, t: BranchType, node: string): seq<Branch>
    decreases |fs|
  {
    if fs == [] then []
    else
      var rest := EdgeBranches(fs[..|fs| - 1], t, node);
      var f := fs[|fs| - 1];
      if IncomingAt(f, node) then rest + [Branch(t, f.fid, Attr(f, "idnini"), None)] else rest
  }

  /** The liaison branches: the liaisons whose trimmed `id_ouvrage` is the node, with their industrial id. */
  function LiaisonBranches(ls: seq<Feature>, node: string): seq<Branch>
    decreases |ls|
  {
    if ls == [] then []
    else
      var rest := LiaisonBranches(ls[..|ls| - 1], node);
      var lf := ls[|ls| - 1];
      if TrimEquals(lf, "id_ouvrage", node) then rest + [Branch(LiaisonBranch, lf.fid, None, Attr(lf, "id_industriel"))] else rest
  }

  /** The branches `_visit` lists: canal edges, then ditch edges, then liaisons. */
  function UpstreamBranches(canal: Option<LayerData>, fosse: Option<LayerData>, liaison: Option<LayerData>, node: string): seq<Branch> {
    EdgeBranches(Features(canal), CanalBranch, node) + EdgeBranches(Features(fosse), FosseBranch, node) +
    LiaisonBranches(Features(liaison), node)
  }

  lemma {:induction false} EdgeBranchesIff(fs: seq<Feature>, t: BranchType, node: string, b: Branch)
    ensures b in EdgeBranches(fs, t, node) <==> exists f :: f in fs && IncomingAt(f, node) && b == Branch(t, f.fid, Attr(f, "idnini"), None)
    decreases |fs|
  {
    if fs != [] {
      var init := fs[..|fs| - 1];
      EdgeBranchesIff(init, t, node, b);
      assert forall f :: f in fs <==> f in init || f == fs[|fs| - 1];
    }
  }

  lemma {:induction false} LiaisonBranchesIff(ls: seq<Feature>, node: string, b: Branch)
    ensures b in LiaisonBranches(ls, node) <==>
      exists lf :: lf in ls && TrimEquals(lf, "id_ouvrage", node) && b == Branch(LiaisonBranch, lf.fid, None, Attr(lf, "id_industriel"))
    decreases |ls|
  {
    if ls != [] {
      var init := ls[..|ls| - 1];
      LiaisonBranchesIff(init, node, b);
      assert forall f :: f in ls <==> f in init || f == ls[|ls| - 1];
    }
  }

  /**
   * The branches at a node are its incoming canal and ditch edges whose
   * `idnini` is set and not INCONNU, and every liaison attached to it.
   */
  lemma UpstreamBranchesIff(canal: Option<LayerData>, fosse: Option<LayerData>, liaison: Option<LayerData>, node: string, b: Branch)
    ensures b in UpstreamBranches(canal, fosse, liaison, node) <==>
      (exists f :: f in Features(canal) && IncomingAt(f, node) && b == Branch(CanalBranch, f.fid, Attr(f, "idnini"), None)) ||
      (exists f :: f in Features(fosse) && IncomingAt(f, node) && b == Branch(FosseBranch, f.fid, Attr(f, "idnini"), None)) ||
      (exists lf :: lf in Features(liaison) && TrimEquals(lf, "id_ouvrage", node) && b == Branch(LiaisonBranch, lf.fid, None, Attr(lf, "id_industriel")))
  {
    EdgeBranchesIff(Features(canal), CanalBranch, node, b);
    EdgeBranchesIff(Features(fosse), FosseBranch, node, b);
    LiaisonBranchesIff(Features(liaison), node, b);
  }

  /** A canal feature gives a branch exactly when it is an incoming edge of the legacy upstream query. */
  lemma BranchesAreIncomingEdges(canal: Option<LayerData>, fosse: Option<LayerData>, liaison: Option<LayerData>, node: string, f: Feature)
    requires f in Features(canal)
    ensures Branch(CanalBranch, f.fid, Attr(f, "idnini"), None) in UpstreamBranches(canal, fosse, liaison, node) <==>
      TaggedEdge(Canal, f) in QueryEdges(canal, fosse, Up, node)
  {
    var b := Branch(CanalBranch, f.fid, Attr(f, "idnini"), None);
    UpstreamBranchesIff(canal, fosse, liaison, node, b);
    QueryEdgesIff(canal, fosse, node, TaggedEdge(Canal, f));
    if exists g :: g in Features(canal) && IncomingAt(g, node) && b == Branch(CanalBranch, g.fid, Attr(g, "idnini"), None) {
      var g :| g in Features(canal) && IncomingAt(g, node) && b == Branch(CanalBranch, g.fid, Attr(g, "idnini"), None);
      SameFidSameFeature(canal.value.features, f, g);
    }
  }

  /** The loop over one layer's incoming edges. */
  method ScanEdgeBranches(fs: seq<Feature>, t: BranchType, node: string, acc0: seq<Branch>) returns (acc: seq<Branch>)
    ensures acc == acc0 + EdgeBranches(fs, t, node)
  {
    acc := acc0;
    var i := 0;
    while i < |fs|
      invariant 0 <= i <= |fs|
      invariant acc == acc0 + EdgeBranches(fs[..i], t, node)
    {
      var f := fs[i];
      assert fs[..i + 1][..i] == fs[..i];
      if TrimEquals(f, "idnterm", node) && Attr(f, "idnini").Some? && Trim(Attr(f, "idnini").value) != INCONNU {
        acc := acc + [Branch(t, f.fid, Attr(f, "idnini"), None)];
      }
      i := i + 1;
    }
    assert fs[..i] == fs;
  }

  /** The loop over the liaisons attached to the node. */
  method ScanLiaisonBranches(ls: seq<Feature>, node: string, acc0: seq<Branch>) returns (acc: seq<Branch>)
    ensures acc == acc0 + LiaisonBranches(ls, node)
  {
    acc := acc0;
    var i := 0;
    while i < |ls|
      invariant 0 <= i <= |ls|
      invariant acc == acc0 + LiaisonBranches(ls[..i], node)
    {
      var lf := ls[i];
      assert ls[..i + 1][..i] == ls[..i];
      if TrimEquals(lf, "id_ouvrage", node) {
        acc := acc + [Branch(LiaisonBranch, lf.fid, None, Attr(lf, "id_industriel"))];
      }
      i := i + 1;
    }
    assert ls[..i] == ls;
  }

  // ------------------------------------------------------------------
  // The kept branches
  // ------------------------------------------------------------------

  function BranchFids(bs: seq<Branch>): set<int> { set b | b in bs :: b.fid }

  /**
   * The fids the visit keeps, or None when the branch dialog is cancelled:
   * nothing when there is no branch or no pollution, the only branch when
   * there is one, and otherwise the fids ticked in the dialog.
   */
  function ChosenKeep(branches: seq<Branch>, polluted: bool, ticked: Option<set<int>>): Option<set<int>> {
    if branches == [] || !polluted then Some({})
    else if |branches| == 1 then Some({branches[0].fid})
    else if ticked.None? then None
    else Some(ticked.value * BranchFids(branches))
  }

  /**
   * The dialog is asked for, and can be cancelled, only at a polluted node
   * with two branches or more; a single polluted branch is kept; without
   * pollution every branch is discarded; only branch fids are ever kept.
   */
  lemma ChosenKeepSpec(branches: seq<Branch>, polluted: bool, ticked: Option<set<int>>)
    ensures ChosenKeep(branches, polluted, ticked).None? <==> polluted && |branches| > 1 && ticked.None?
    ensures polluted && |branches| == 1 ==> ChosenKeep(branches, polluted, ticked) == Some({branches[0].fid})
    ensures !polluted ==> ChosenKeep(branches, polluted, ticked) == Some({})
    ensures !polluted ==> forall i :: 0 <= i < |branches| ==> Dropped(branches[i], ChosenKeep(branches, polluted, ticked).value)
    ensures ChosenKeep(branches, polluted, ticked).Some? ==> ChosenKeep(branches, polluted, ticked).value <= BranchFids(branches)
  {
    if polluted && |branches| == 1 {
      assert branches[0] in branches;
    }
  }

  /** The upstream-on-selection walk from a kept branch's `amont` (stripped), nothing when it is unset. */
  ghost function KeepWalk(incoming: EdgeMap, b: Branch, selC: set<int>, selF: set<int>): WalkOut {
    if Truthy(b.amont) then CachedWalk(incoming, Up, OnSelection(selC, selF), Strip(b.amont.value)) else WalkOut({}, {}, {})
  }

  /** One kept branch: its own fid when it is a canal or ditch, then its upstream walk. */
  function KeepBranch(k: WalkOut, b: Branch, u: WalkOut): WalkOut {
    WalkOut(k.cids + (if b.typ == CanalBranch then {b.fid} else {}) + u.cids,
            k.fids + (if b.typ == FosseBranch then {b.fid} else {}) + u.fids,
            k.nodes + u.nodes)
  }

  /** The KEEP loop: the kept branches and their upstream on the selection. */
  ghost function KeepPlan(incoming: EdgeMap, branches: seq<Branch>, chosen: set<int>, selC: set<int>, selF: set<int>): WalkOut
    decreases |branches|
  {
    if branches == [] then WalkOut({}, {}, {})
    else
      var k := KeepPlan(incoming, branches[..|branches| - 1], chosen, selC, selF);
      var b := branches[|branches| - 1];
      if b.fid !in chosen then k else KeepBranch(k, b, KeepWalk(incoming, b, selC, selF))
  }

  /** The fids of the kept branches of one type. */
  function ChosenOf(bs: seq<Branch>, chosen: set<int>, t: BranchType): set<int> {
    set b | b in bs && b.fid in chosen && b.typ == t :: b.fid
  }

  lemma CachedWalkWithin(cache: EdgeMap, d: Dir, selC: set<int>, selF: set<int>, start: string)
    ensures CachedWalk(cache, d, OnSelection(selC, selF), start).cids <= selC
    ensures CachedWalk(cache, d, OnSelection(selC, selF), start).fids <= selF
  {
    CacheBounded(cache, d, start);
    var w := CachedWalk(cache, d, OnSelection(selC, selF), start);
    WalkWithinSelection(AdjOf(cache), PushRule(d), selC, selF, w.nodes);
  }

  /**
   * KEEP holds every kept canal and ditch branch, and otherwise only edges
   * of the selection it walked on.
   */
  lemma {:induction false} KeepPlanBounds(incoming: EdgeMap, branches: seq<Branch>, chosen: set<int>, selC: set<int>, selF: set<int>)
    ensures ChosenOf(branches, chosen, CanalBranch) <= KeepPlan(incoming, branches, chosen, selC, selF).cids
    ensures ChosenOf(branches, chosen, FosseBranch) <= KeepPlan(incoming, branches, chosen, selC, selF).fids
    ensures KeepPlan(incoming, branches, chosen, selC, selF).cids <= selC + ChosenOf(branches, chosen, CanalBranch)
    ensures KeepPlan(incoming, branches, chosen, selC, selF).fids <= selF + ChosenOf(branches, chosen, FosseBranch)
    decreases |branches|
  {
    if branches != [] {
      var init := branches[..|branches| - 1];
      var b := branches[|branches| - 1];
      KeepPlanBounds(incoming, init, chosen, selC, selF);
      assert forall x :: x in branches <==> x in init || x == b;
      if b.fid in chosen && Truthy(b.amont) {
        CachedWalkWithin(incoming, Up, selC, selF, Strip(b.amont.value));
      }
    }
  }

  // ------------------------------------------------------------------
  // The purge
  // ------------------------------------------------------------------

  /**
   * `_nodes_from_ids` for one purged edge: both stripped ends when neither
   * is empty nor INCONNU in any case; a missing field skips the edge.
   */
  function PurgedEnds(f: Feature): set<string> {
    if "idnini" in f.attrs && "idnterm" in f.attrs then
      (if Trimmed(f, "idnini") != "" && !IsUnknownCI(Trimmed(f, "idnini")) then {Trimmed(f, "idnini")} else {}) +
      (if Trimmed(f, "idnterm") != "" && !IsUnknownCI(Trimmed(f, "idnterm")) then {Trimmed(f, "idnterm")} else {})
    else {}
  }

  /** The ends the loop collects over a sequence of purged edges. */
  function PurgedOf(fs: seq<Feature>): set<string>
    decreases |fs|
  {
    if fs == [] then {} else PurgedOf(fs[..|fs| - 1]) + PurgedEnds(fs[|fs| - 1])
  }

  /** The ends collected from the edges with the given ids (`setFilterFids`). */
  function PurgedNodes(l: Option<LayerData>, ids: set<int>): set<string> {
    if l.None? || ids == {} then {} else PurgedOf(FeaturesWithFids(l.value.features, ids))
  }

  lemma {:induction false} PurgedOfIff(fs: seq<Feature>, n: string)
    ensures n in PurgedOf(fs) <==> exists f :: f in fs && n in PurgedEnds(f)
    decreases |fs|
  {
    if fs != [] {
      PurgedOfIff(fs[..|fs| - 1], n);
      assert forall f :: f in fs <==> f in fs[..|fs| - 1] || f == fs[|fs| - 1];
    }
  }

  /** The nodes of the purged edges are the ends of the edges with the given ids. */
  lemma PurgedNodesIff(l: Option<LayerData>, ids: set<int>, n: string)
    ensures n in PurgedNodes(l, ids) <==> exists f :: f in Features(l) && f.fid in ids && n in PurgedEnds(f)
  {
    if l.Some? && ids != {} {
      PurgedOfIff(FeaturesWithFids(l.value.features, ids), n);
    }
  }

  /** The nodes whose liaisons the purge removes: the ends of the purged edges that are not KEEP nodes. */
  function OrphanNodes(canal: Option<LayerData>, fosse: Option<LayerData>, remC: set<int>, remF: set<int>, keepNodes: set<string>): set<string> {
    PurgedNodes(canal, remC) + PurgedNodes(fosse, remF) - keepNodes
  }

  /** The loop over one layer's purged edges. */
  method AddPurgedEnds(fs: seq<Feature>, nodes0: set<string>) returns (nodes: set<string>)
    ensures nodes == nodes0 + PurgedOf(fs)
  {
    nodes := nodes0;
    var i := 0;
    while i < |fs|
      invariant 0 <= i <= |fs|
      invariant nodes == nodes0 + PurgedOf(fs[..i])
    {
      var f := fs[i];
      assert fs[..i + 1][..i] == fs[..i];
      if "idnini" in f.attrs && "idnterm" in f.attrs {
        var ni := Trimmed(f, "idnini");
        var nt := Trimmed(f, "idnterm");
        if ni != "" && !IsUnknownCI(ni) {
          nodes := nodes + {ni};
        }
        if nt != "" && !IsUnknownCI(nt) {
          nodes := nodes + {nt};
        }
      }
      i := i + 1;
    }
    assert fs[..i] == fs;
  }

  // ------------------------------------------------------------------
  // Legacy deselection of liaisons and industrials
  // ------------------------------------------------------------------

  /** The non-empty stripped node ids a legacy `IN (...)` list is built from. */
  function InValues(nodes: set<string>): set<string> {
    set n | n in nodes && Strip(n) != "" :: Strip(n)
  }

  /** The ids of the liaisons with `trim("id_ouvrage") IN values`; NULL never matches. */
  function LiaisonsIn(ls: seq<Feature>, values: set<string>): set<int> {
    set lf | lf in ls && Attr(lf, "id_ouvrage").Some? && Trim(Attr(lf, "id_ouvrage").value) in values :: lf.fid
  }

  /** The legacy industrial id of a liaison: set and not exactly INCONNU; a missing field is skipped. */
  function LegacyIndusOf(lf: Feature): Option<string> {
    if "id_industriel" in lf.attrs && UsableEnd(lf.attrs["id_industriel"]) then lf.attrs["id_industriel"] else None
  }

  /** The legacy industrial ids of the liaisons with the given ids. */
  function LegacyIndus(ls: seq<Feature>, ids: set<int>): set<string> {
    set lf | lf in ls && lf.fid in ids && LegacyIndusOf(lf).Some? :: LegacyIndusOf(lf).value
  }

  /** Unlike the cached rule, the legacy rule keeps "inconnu" in other cases, and no id is empty. */
  lemma LegacyIndusClean(ls: seq<Feature>, ids: set<int>)
    ensures forall x :: x in LegacyIndus(ls, ids) ==> x != "" && x != INCONNU
  {
  }

  /** The `for lid in lids: getFeature(lid)` loop. */
  method CollectLegacyIndus(ls: seq<Feature>, ids: set<int>, acc0: set<string>) returns (acc: set<string>)
    ensures acc == acc0 + LegacyIndus(ls, ids)
  {
    acc := acc0;
    var i := 0;
    while i < |ls|
      invariant 0 <= i <= |ls|
      invariant acc == acc0 + LegacyIndus(ls[..i], ids)
    {
      var lf := ls[i];
      if lf.fid in ids && LegacyIndusOf(lf).Some? {
        acc := acc + {LegacyIndusOf(lf).value};
      }
      assert ls[..i + 1] == ls[..i] + [lf];
      assert LegacyIndus(ls[..i + 1], ids) ==
        LegacyIndus(ls[..i], ids) + (if lf.fid in ids && LegacyIndusOf(lf).Some? then {LegacyIndusOf(lf).value} else {});
      i := i + 1;
    }
    assert ls[..i] == ls;
  }

  /** `_nodes_from_ids(layer, ids)`. */
  method NodesFromIds(l: VectorLayer?, ids: set<int>) returns (out: set<string>)
    ensures out == PurgedNodes(DataOf(l), ids)
  {
    if l == null || ids == {} {
      return {};
    }
    out := AddPurgedEnds(FeaturesWithFids(l.data.features, ids), {});
  }

  // ------------------------------------------------------------------
  // Legacy walks over per-node queries
  // ------------------------------------------------------------------

  /** The legacy walk loop over the dock's queries; a downstream walk starts from a stripped node. */
  method QueryWalkOn(canal: Option<LayerData>, fosse: Option<LayerData>, d: Dir, r: Restriction, start: string)
    returns (cids: set<int>, fids: set<int>, nodes: set<string>)
    requires d == Down ==> Strip(start) == start
    ensures WalkOut(cids, fids, nodes) == QueryWalk(canal, fosse, d, r, start)
    ensures r.OnSelection? ==> cids <= r.selC && fids <= r.selF
  {
    ghost var U := QueryUniverse(canal, fosse, d, start);
    QueryBounded(canal, fosse, d, start);
    QueryUnique(canal, fosse, d, U);
    cids, fids, nodes := WalkOn(QueryAdj(canal, fosse, d), PushRule(d), r, start, U);
    if r.OnSelection? {
      WalkWithinSelection(QueryAdj(canal, fosse, d), PushRule(d), r.selC, r.selF, nodes);
    }
  }

  // ------------------------------------------------------------------
  // The visit
  // ------------------------------------------------------------------

  /** An entry of `self.visited`. */
  datatype VisitRecord = VisitRecord(id: string, pollution: bool)

  /** The answer to "Pollution détectée sur ce nœud ?". */
  datatype Answer = Yes | No | Cancel

  /** The selections of the four layers. */
  datatype Selections = Selections(canal: set<int>, fosse: set<int>, liaison: set<int>, indus: set<int>)

  /** What a polluted visit computes on the way: the downstream walk, KEEP and the orphaned nodes. */
  datatype VisitTrace = VisitTrace(down: WalkOut, keep: WalkOut, orphans: set<string>)

  /** The industrial features deselected for a set of removed ids (none without the layer). */
  function IndusDropped(indus: Option<LayerData>, ids: set<string>): set<int> {
    if indus.None? then {} else IndusFids(indus.value, ids - {""})
  }

  lemma IndusDroppedUnion(indus: Option<LayerData>, a: set<string>, b: set<string>)
    ensures IndusDropped(indus, a) + IndusDropped(indus, b) == IndusDropped(indus, a + b)
  {
  }

  /** Deselecting the industrials of three id sets in turn drops those of their union. */
  lemma IndusDroppedChain(indus: Option<LayerData>, sel: set<int>, a: set<string>, b: set<string>, c: set<string>)
    ensures sel - IndusDropped(indus, a) - IndusDropped(indus, b) - IndusDropped(indus, c) == sel - IndusDropped(indus, a + (b + c))
  {
    IndusDroppedUnion(indus, a, b);
    IndusDroppedUnion(indus, a + b, c);
    assert a + (b + c) == a + b + c;
  }

  lemma LiaisonIdsUnion(cache: LiaisonMap, a: set<string>, b: set<string>)
    ensures LiaisonIdsAt(cache, a) + LiaisonIdsAt(cache, b) == LiaisonIdsAt(cache, a + b)
    ensures IndusIdsAt(cache, a) + IndusIdsAt(cache, b) == IndusIdsAt(cache, a + b)
  {
  }

  /** The selections once the bulk plan of the discarded branches is deselected (industrials aside). */
  function AfterPlan(before: Selections, plan: Removal, lc: LiaisonMap): Selections {
    Selections(before.canal - plan.cids, before.fosse - plan.fids, before.liaison - (plan.lids + LiaisonIdsAt(lc, plan.nodes)), before.indus)
  }

  /**
   * The purge of a polluted visit from the canal, ditch and liaison
   * selections left by the branch step: the downstream walk on them is deselected, then everything still
   * selected outside KEEP, and the liaisons at the nodes of the downstream
   * walk and at the orphaned ends of purged edges.
   */
  ghost predicate PollutedPurge(canal: Option<LayerData>, fosse: Option<LayerData>, liaison: Option<LayerData>,
                                node: string, branches: seq<Branch>, chosen: set<int>,
                                selC: set<int>, selF: set<int>, selL: set<int>,
                                after: Selections, t: VisitTrace, removedDown: set<string>)
  {
    var lc := LiaisonCache(liaison);
    var s2c := selC - t.down.cids;
    var s2f := selF - t.down.fids;
    t.down == CachedWalk(EdgeCache(canal, fosse, Down), Down, OnSelection(selC, selF), node) &&
    t.keep == KeepPlan(EdgeCache(canal, fosse, Up), branches, chosen, s2c, s2f) &&
    t.orphans == OrphanNodes(canal, fosse, s2c - t.keep.cids, s2f - t.keep.fids, t.keep.nodes + {node}) &&
    after.canal == s2c * t.keep.cids && after.fosse == s2f * t.keep.fids &&
    after.liaison == selL - LiaisonIdsAt(lc, t.down.nodes + t.orphans) &&
    removedDown == (if liaison.Some? then IndusIdsAt(lc, t.down.nodes + t.orphans) else {})
  }

  /**
   * The selections after a visit at node: the bulk plan of the discarded
   * branches is deselected and, when polluted, the purge follows; the
   * industrials named by the removed liaisons are deselected and reported.
   */
  ghost predicate Pruned(canal: Option<LayerData>, fosse: Option<LayerData>, liaison: Option<LayerData>, indus: Option<LayerData>,
                         node: string, branches: seq<Branch>, chosen: set<int>, polluted: bool,
                         before: Selections, after: Selections, plan: Removal, t: VisitTrace,
                         removedUp: set<string>, removedDown: set<string>)
  {
    var lc := LiaisonCache(liaison);
    var s1c := before.canal - plan.cids;
    var s1f := before.fosse - plan.fids;
    var s1l := before.liaison - (plan.lids + LiaisonIdsAt(lc, plan.nodes));
    plan == BulkPlan(Cached(EdgeCache(canal, fosse, Up)), branches, chosen) &&
    removedUp == plan.indus + IndusIdsAt(lc, plan.nodes) &&
    after.indus == before.indus - IndusDropped(indus, removedUp + removedDown) &&
    (!polluted ==> after.canal == s1c && after.fosse == s1f && after.liaison == s1l && removedDown == {}) &&
    (polluted ==> PollutedPurge(canal, fosse, liaison, node, branches, chosen, s1c, s1f, s1l, after, t, removedDown))
  }

  /**
   * What a visit leaves selected: nothing that was not selected before;
   * after a polluted visit, no edge of the downstream walk and nothing
   * outside KEEP, while every kept canal or ditch branch that survived the
   * downstream purge stays selected (PURGE and what remains split the
   * selection left by the downstream purge).
   */
  lemma PrunedSelection(canal: Option<LayerData>, fosse: Option<LayerData>, liaison: Option<LayerData>, indus: Option<LayerData>,
                        node: string, branches: seq<Branch>, chosen: set<int>, polluted: bool,
                        before: Selections, after: Selections, plan: Removal, t: VisitTrace,
                        removedUp: set<string>, removedDown: set<string>)
    requires Pruned(canal, fosse, liaison, indus, node, branches, chosen, polluted, before, after, plan, t, removedUp, removedDown)
    ensures after.canal <= before.canal && after.fosse <= before.fosse
    ensures after.liaison <= before.liaison && after.indus <= before.indus
    ensures after.canal !! plan.cids && after.fosse !! plan.fids
    ensures polluted ==> after.canal !! t.down.cids && after.fosse !! t.down.fids
    ensures polluted ==> after.canal <= t.keep.cids && after.fosse <= t.keep.fids
    ensures polluted ==> ChosenOf(branches, chosen, CanalBranch) * (before.canal - plan.cids - t.down.cids) <= after.canal
    ensures polluted ==> ChosenOf(branches, chosen, FosseBranch) * (before.fosse - plan.fids - t.down.fids) <= after.fosse
  {
    if polluted {
      KeepPlanBounds(EdgeCache(canal, fosse, Up), branches, chosen, before.canal - plan.cids - t.down.cids, before.fosse - plan.fids - t.down.fids);
    }
  }

  /** The three deselection steps of a polluted visit compose into `PollutedPurge`. */
  lemma PollutedPurgeSteps(canal: Option<LayerData>, fosse: Option<LayerData>, liaison: Option<LayerData>,
                           node: string, branches: seq<Branch>, chosen: set<int>,
                           s1: Selections, s2: Selections, after: Selections, t: VisitTrace, rd: set<string>, rr: set<string>)
    requires t.down == CachedWalk(EdgeCache(canal, fosse, Down), Down, OnSelection(s1.canal, s1.fosse), node)
    requires rd == (if liaison.Some? then IndusIdsAt(LiaisonCache(liaison), t.down.nodes) else {})
    requires s2.canal == s1.canal - t.down.cids && s2.fosse == s1.fosse - t.down.fids
    requires s2.liaison == s1.liaison - LiaisonIdsAt(LiaisonCache(liaison), t.down.nodes)
    requires t.keep == KeepPlan(EdgeCache(canal, fosse, Up), branches, chosen, s2.canal, s2.fosse)
    requires t.orphans == OrphanNodes(canal, fosse, s2.canal - t.keep.cids, s2.fosse - t.keep.fids, t.keep.nodes + {node})
    requires rr == (if liaison.Some? then IndusIdsAt(LiaisonCache(liaison), t.orphans) else {})
    requires after.canal == s2.canal * t.keep.cids && after.fosse == s2.fosse * t.keep.fids
    requires after.liaison == s2.liaison - LiaisonIdsAt(LiaisonCache(liaison), t.orphans)
    ensures PollutedPurge(canal, fosse, liaison, node, branches, chosen, s1.canal, s1.fosse, s1.liaison, after, t, rd + rr)
  {
    var lc := LiaisonCache(liaison);
    LiaisonIdsUnion(lc, t.down.nodes, t.orphans);
    assert after.liaison == s1.liaison - LiaisonIdsAt(lc, t.down.nodes + t.orphans);
    assert rd + rr == (if liaison.Some? then IndusIdsAt(lc, t.down.nodes + t.orphans) else {});
  }

  /** The branch step and the purge of a polluted visit compose into `Pruned`. */
  lemma PrunedPolluted(canal: Option<LayerData>, fosse: Option<LayerData>, liaison: Option<LayerData>, indus: Option<LayerData>,
                       node: string, branches: seq<Branch>, chosen: set<int>,
                       before: Selections, after: Selections, plan: Removal, t: VisitTrace,
                       removedUp: set<string>, removedDown: set<string>, rd: set<string>, rr: set<string>)
    requires removedDown == rd + rr
    requires plan == BulkPlan(Cached(EdgeCache(canal, fosse, Up)), branches, chosen)
    requires removedUp == plan.indus + IndusIdsAt(LiaisonCache(liaison), plan.nodes)
    requires PollutedPurge(canal, fosse, liaison, node, branches, chosen, before.canal - plan.cids, before.fosse - plan.fids,
                           before.liaison - (plan.lids + LiaisonIdsAt(LiaisonCache(liaison), plan.nodes)), after, t, rd + rr)
    requires after.indus == before.indus - IndusDropped(indus, removedUp) - IndusDropped(indus, rd) - IndusDropped(indus, rr)
    ensures Pruned(canal, fosse, liaison, indus, node, branches, chosen, true, before, after, plan, t, removedUp, removedDown)
  {
    IndusDroppedChain(indus, before.indus, removedUp, rd, rr);
  }

  /** The branch step of a visit without pollution is all of `Pruned`. */
  lemma PrunedClean(canal: Option<LayerData>, fosse: Option<LayerData>, liaison: Option<LayerData>, indus: Option<LayerData>,
                    node: string, branches: seq<Branch>, chosen: set<int>,
                    before: Selections, after: Selections, plan: Removal, t: VisitTrace,
                    removedUp: set<string>, removedDown: set<string>)
    requires removedDown == {}
    requires plan == BulkPlan(Cached(EdgeCache(canal, fosse, Up)), branches, chosen)
    requires removedUp == plan.indus + IndusIdsAt(LiaisonCache(liaison), plan.nodes)
    requires after == AfterPlan(before, plan, LiaisonCache(liaison)).(indus := before.indus - IndusDropped(indus, removedUp))
    ensures Pruned(canal, fosse, liaison, indus, node, branches, chosen, false, before, after, plan, t, removedUp, removedDown)
  {
    assert removedUp + {} == removedUp;
  }

  /** The rows, all and visible, once the ids are excluded. */
  function Excluded(rows: (Table, Table), ids: set<string>): (Table, Table) {
    if ids == {} then rows else (Without(rows.0, ids), Without(rows.1, ids))
  }

  class MainDock {
    var canalLayer: VectorLayer?
    var fosseLayer: VectorLayer?
    var liaisonLayer: VectorLayer?
    var indusLayer: VectorLayer?
    var industrialDock: IndustrialDock?
    var nodeOps: OptimizedNodeOps?
    var visited: seq<VisitRecord>
    /** The text of the start field. */
    var idInput: string

    /** The four layers are distinct objects. */
    ghost predicate Valid()
      reads this
    {
      Distinct(canalLayer, fosseLayer, liaisonLayer, indusLayer)
    }

    /** The node operations exist, are consistent and work on the dock's layers. */
    ghost predicate Ready()
      reads this, nodeOps
    {
      nodeOps != null && nodeOps.Valid() &&
      nodeOps.canalLayer == canalLayer && nodeOps.fosseLayer == fosseLayer &&
      nodeOps.liaisonLayer == liaisonLayer && nodeOps.indusLayer == indusLayer
    }

    function Selected(): Selections
      reads this, canalLayer, fosseLayer, liaisonLayer, indusLayer
    {
      Selections(SelectionOf(canalLayer), SelectionOf(fosseLayer), SelectionOf(liaisonLayer), SelectionOf(indusLayer))
    }

    /** The industrial table's rows, all and visible (none without the table). */
    function DockRows(): (Table, Table)
      reads this, industrialDock
    {
      if industrialDock == null then (map[], map[]) else (industrialDock.raw, industrialDock.visible)
    }

    constructor (canal: VectorLayer?, fosse: VectorLayer?, liaison: VectorLayer?, indus: VectorLayer?, dock: IndustrialDock?)
      requires Distinct(canal, fosse, liaison, indus)
      ensures canalLayer == canal && fosseLayer == fosse && liaisonLayer == liaison && indusLayer == indus
      ensures industrialDock == dock && nodeOps == null && visited == [] && idInput == ""
      ensures Valid()
    {
      canalLayer, fosseLayer, liaisonLayer, indusLayer := canal, fosse, liaison, indus;
      industrialDock := dock;
      nodeOps := null;
      visited := [];
      idInput := "";
    }

    /** `_selected_id_sets()`. */
    function SelectedIdSets(): (set<int>, set<int>)
      reads this, canalLayer, fosseLayer
    {
      (SelectionOf(canalLayer), SelectionOf(fosseLayer))
    }

    /** `_collect_nodes_from_ids(canal_ids, fosse_ids, downstream)`. */
    method CollectNodesFromIds(canalIds: seq<int>, fosseIds: seq<int>, downstream: bool) returns (nodes: set<string>)
      ensures nodes == CollectedNodes(DataOf(canalLayer), DataOf(fosseLayer), canalIds, fosseIds, idInput)
    {
      nodes := {};
      if canalLayer != null && canalIds != [] {
        nodes := AddEndNodes(FeaturesWithFids(canalLayer.data.features, Elems(canalIds)), downstream, nodes);
      }
      if fosseLayer != null && fosseIds != [] {
        nodes := AddEndNodes(FeaturesWithFids(fosseLayer.data.features, Elems(fosseIds)), downstream, nodes);
      }
      var start := Strip(idInput);
      if start != "" {
        nodes := nodes + {start};
      }
    }

    // ---------------- legacy walks ----------------

    /** `_walk_upstream_mixed(start)`: from `str(start)`, not stripped. */
    method WalkUpstreamMixed(startNode: Option<string>) returns (cids: set<int>, fids: set<int>, nodes: set<string>)
      ensures !Truthy(startNode) ==> cids == {} && fids == {} && nodes == {}
      ensures Truthy(startNode) ==> WalkOut(cids, fids, nodes) == QueryWalk(DataOf(canalLayer), DataOf(fosseLayer), Up, Unrestricted, startNode.value)
    {
      if !Truthy(startNode) {
        return {}, {}, {};
      }
      cids, fids, nodes := QueryWalkOn(DataOf(canalLayer), DataOf(fosseLayer), Up, Unrestricted, startNode.value);
    }

    /** `_walk_downstream_mixed(start)`: from the stripped start. */
    method WalkDownstreamMixed(startNode: Option<string>) returns (cids: set<int>, fids: set<int>, nodes: set<string>)
      ensures !Truthy(startNode) ==> cids == {} && fids == {} && nodes == {}
      ensures Truthy(startNode) ==> WalkOut(cids, fids, nodes) == QueryWalk(DataOf(canalLayer), DataOf(fosseLayer), Down, Unrestricted, Strip(startNode.value))
    {
      if !Truthy(startNode) {
        return {}, {}, {};
      }
      StripIdempotent(startNode.value);
      cids, fids, nodes := QueryWalkOn(DataOf(canalLayer), DataOf(fosseLayer), Down, Unrestricted, Strip(startNode.value));
    }

    /** `_walk_downstream_on_selected(start)`: only selected edges are recorded and followed. */
    method WalkDownstreamOnSelected(startNode: Option<string>) returns (cids: set<int>, fids: set<int>, nodes: set<string>)
      ensures !Truthy(startNode) ==> cids == {} && fids == {} && nodes == {}
      ensures Truthy(startNode) ==>
        WalkOut(cids, fids, nodes) == QueryWalk(DataOf(canalLayer), DataOf(fosseLayer), Down, OnSelection(SelectionOf(canalLayer), SelectionOf(fosseLayer)), Strip(startNode.value))
      ensures cids <= SelectionOf(canalLayer) && fids <= SelectionOf(fosseLayer)
    {
      if !Truthy(startNode) {
        return {}, {}, {};
      }
      var sel := SelectedIdSets();
      StripIdempotent(startNode.value);
      cids, fids, nodes := QueryWalkOn(DataOf(canalLayer), DataOf(fosseLayer), Down, OnSelection(sel.0, sel.1), Strip(startNode.value));
    }

    /** `_walk_upstream_on_selected(start)`. */
    method WalkUpstreamOnSelected(startNode: Option<string>) returns (cids: set<int>, fids: set<int>, nodes: set<string>)
      ensures !Truthy(startNode) ==> cids == {} && fids == {} && nodes == {}
      ensures Truthy(startNode) ==>
        WalkOut(cids, fids, nodes) == QueryWalk(DataOf(canalLayer), DataOf(fosseLayer), Up, OnSelection(SelectionOf(canalLayer), SelectionOf(fosseLayer)), Strip(startNode.value))
      ensures cids <= SelectionOf(canalLayer) && fids <= SelectionOf(fosseLayer)
    {
      if !Truthy(startNode) {
        return {}, {}, {};
      }
      var sel := SelectedIdSets();
      cids, fids, nodes := QueryWalkOn(DataOf(canalLayer), DataOf(fosseLayer), Up, OnSelection(sel.0, sel.1), Strip(startNode.value));
    }

    /**
     * `_deselect_liaisons_and_indus_from_nodes(nodes)`: the liaisons whose
     * trimmed `id_ouvrage` is one of the stripped nodes are deselected, and
     * so are the industrials they name.
     */
    method DeselectLiaisonsAndIndusFromNodes(nodes: set<string>) returns (removed: set<string>)
      requires Valid()
      modifies liaisonLayer, indusLayer
      ensures var ls := Features(DataOf(liaisonLayer));
        removed == LegacyIndus(ls, LiaisonsIn(ls, InValues(nodes))) &&
        SelectionOf(liaisonLayer) == old(SelectionOf(liaisonLayer)) - LiaisonsIn(ls, InValues(nodes))
      ensures SelectionOf(indusLayer) == old(SelectionOf(indusLayer)) - IndusDropped(DataOf(indusLayer), removed)
      ensures forall x :: x in removed ==> x != "" && x != INCONNU
    {
      ghost var ls := Features(DataOf(liaisonLayer));
      LegacyIndusClean(ls, LiaisonsIn(ls, InValues(nodes)));
      removed := {};
      if nodes != {} && liaisonLayer != null {
        var values := InValues(nodes);
        if values != {} {
          var lids := LiaisonsIn(liaisonLayer.data.features, values);
          removed := DeselectLiaisonIds(lids, {});
        }
      }
      DeselectIndusLegacy(removed);
    }

    /** The `for lid in ids: getFeature(lid)` loop followed by `deselect(ids)`, for a non-empty id list. */
    method DeselectLiaisonIds(ids: set<int>, acc0: set<string>) returns (acc: set<string>)
      modifies liaisonLayer
      ensures acc == acc0 + LegacyIndus(Features(DataOf(liaisonLayer)), ids)
      ensures SelectionOf(liaisonLayer) == old(SelectionOf(liaisonLayer)) - ids
    {
      acc := acc0;
      if liaisonLayer != null && ids != {} {
        acc := CollectLegacyIndus(liaisonLayer.data.features, ids, acc0);
        liaisonLayer.Deselect(ids);
      }
    }

    /** The closing `trim("id") IN (...)` deselection of the legacy methods. */
    method DeselectIndusLegacy(removed: set<string>)
      modifies indusLayer
      ensures SelectionOf(indusLayer) == old(SelectionOf(indusLayer)) - IndusDropped(DataOf(indusLayer), removed)
    {
      if indusLayer != null && removed != {} {
        var remIds := IndusFids(indusLayer.data, removed - {""});
        if remIds != {} {
          indusLayer.Deselect(remIds);
        }
      }
    }

    /** `if layer and ids: layer.deselect(ids)`, on the canal and the ditch layers. */
    method DeselectEdges(cids: set<int>, fids: set<int>)
      requires Valid()
      modifies canalLayer, fosseLayer
      ensures SelectionOf(canalLayer) == old(SelectionOf(canalLayer)) - cids
      ensures SelectionOf(fosseLayer) == old(SelectionOf(fosseLayer)) - fids
    {
      if canalLayer != null && cids != {} {
        canalLayer.Deselect(cids);
      }
      if fosseLayer != null && fids != {} {
        fosseLayer.Deselect(fids);
      }
    }

    /** The liaison deselection of a bulk plan, by id and by node value. */
    method DeselectPlanLiaisons(p: Removal) returns (removedIndus: set<string>)
      modifies liaisonLayer
      ensures var ls := Features(DataOf(liaisonLayer));
        var ids := p.lids + LiaisonsIn(ls, InValues(p.nodes));
        removedIndus == p.indus + LegacyIndus(ls, ids) &&
        SelectionOf(liaisonLayer) == old(SelectionOf(liaisonLayer)) - ids
    {
      removedIndus := p.indus;
      if liaisonLayer != null {
        var ids := p.lids;
        if p.nodes != {} {
          var values := InValues(p.nodes);
          if values != {} {
            ids := ids + LiaisonsIn(liaisonLayer.data.features, values);
          }
        }
        removedIndus := DeselectLiaisonIds(ids, removedIndus);
      }
    }

    /** The branch loop of the legacy bulk deselection. */
    method PlanLegacy(branches: seq<Branch>, chosen: set<int>) returns (p: Removal)
      ensures p == BulkPlan(Queried(DataOf(canalLayer), DataOf(fosseLayer)), branches, chosen)
    {
      p := Removal({}, {}, {}, {}, {});
      var i := 0;
      while i < |branches|
        invariant 0 <= i <= |branches|
        invariant p == BulkPlan(Queried(DataOf(canalLayer), DataOf(fosseLayer)), branches[..i], chosen)
      {
        var b := branches[i];
        assert branches[..i + 1][..i] == branches[..i];
        var u := WalkOut({}, {}, {});
        if b.fid !in chosen && b.typ != LiaisonBranch {
          var c, f, n := WalkUpstreamMixed(b.amont);
          u := WalkOut(c, f, n);
        }
        p := AddBranch(p, b, chosen, u);
        i := i + 1;
      }
      assert branches[..i] == branches;
    }

    /**
     * `_bulk_deselect_unselected_branches`: the discarded branches and their
     * upstream are deselected, then the liaisons among them and those at
     * every node met upstream, and the industrials these name.
     */
    method BulkDeselectUnselectedBranches(startNode: string, branches: seq<Branch>, chosen: set<int>) returns (removedIndus: set<string>)
      requires Valid()
      modifies canalLayer, fosseLayer, liaisonLayer, indusLayer
      ensures var p := BulkPlan(Queried(DataOf(canalLayer), DataOf(fosseLayer)), branches, chosen);
        var ls := Features(DataOf(liaisonLayer));
        var ids := p.lids + LiaisonsIn(ls, InValues(p.nodes));
        removedIndus == p.indus + LegacyIndus(ls, ids) &&
        SelectionOf(canalLayer) == old(SelectionOf(canalLayer)) - p.cids &&
        SelectionOf(fosseLayer) == old(SelectionOf(fosseLayer)) - p.fids &&
        SelectionOf(liaisonLayer) == old(SelectionOf(liaisonLayer)) - ids
      ensures SelectionOf(indusLayer) == old(SelectionOf(indusLayer)) - IndusDropped(DataOf(indusLayer), removedIndus)
    {
      var p := PlanLegacy(branches, chosen);
      DeselectEdges(p.cids, p.fids);
      removedIndus := DeselectPlanLiaisons(p);
      DeselectIndusLegacy(removedIndus);
    }

    // ---------------- the visit ----------------

    /**
     * The first step of `_visit`: the node operations are created on the
     * dock's layers, or given the current layers and their caches dropped.
     */
    method PrepareOps()
      requires Valid()
      modifies this`nodeOps, nodeOps
      ensures Ready() && (nodeOps == old(nodeOps) || fresh(nodeOps))
      ensures Selected() == old(Selected()) && DockRows() == old(DockRows())
      ensures nodeOps.incomingCache == None && nodeOps.outgoingCache == None && nodeOps.liaisonByNode == None
    {
      if nodeOps == null {
        nodeOps := new OptimizedNodeOps(canalLayer, fosseLayer, liaisonLayer, indusLayer);
      } else {
        nodeOps.canalLayer := canalLayer;
        nodeOps.fosseLayer := fosseLayer;
        nodeOps.liaisonLayer := liaisonLayer;
        nodeOps.indusLayer := indusLayer;
        nodeOps.InvalidateCaches();
      }
    }

    /** The branches arriving at the node: canals, then ditches, then liaisons. */
    method CollectBranches(node: string) returns (branches: seq<Branch>)
      ensures branches == UpstreamBranches(DataOf(canalLayer), DataOf(fosseLayer), DataOf(liaisonLayer), node)
    {
      var c, f, l := [], [], [];
      if canalLayer != null {
        c := ScanEdgeBranches(canalLayer.data.features, CanalBranch, node, []);
      }
      assert c == EdgeBranches(Features(DataOf(canalLayer)), CanalBranch, node);
      if fosseLayer != null {
        f := ScanEdgeBranches(fosseLayer.data.features, FosseBranch, node, []);
      }
      assert f == EdgeBranches(Features(DataOf(fosseLayer)), FosseBranch, node);
      if liaisonLayer != null {
        l := ScanLiaisonBranches(liaisonLayer.data.features, node, []);
      }
      assert l == LiaisonBranches(Features(DataOf(liaisonLayer)), node);
      branches := c + f + l;
    }

    /** The bulk deselection of the discarded branches, skipped when the node has none. */
    method DeselectUpstream(node: string, branches: seq<Branch>, chosen: set<int>) returns (ghost plan: Removal, removedUp: set<string>)
      requires Ready()
      modifies nodeOps, canalLayer, fosseLayer, liaisonLayer, indusLayer
      ensures Ready()
      ensures plan == BulkPlan(Cached(EdgeCache(old(DataOf(canalLayer)), old(DataOf(fosseLayer)), Up)), branches, chosen)
      ensures removedUp == plan.indus + IndusIdsAt(LiaisonCache(old(DataOf(liaisonLayer))), plan.nodes)
      ensures SelectionOf(canalLayer) == old(SelectionOf(canalLayer)) - plan.cids
      ensures SelectionOf(fosseLayer) == old(SelectionOf(fosseLayer)) - plan.fids
      ensures SelectionOf(liaisonLayer) == old(SelectionOf(liaisonLayer)) - (plan.lids + LiaisonIdsAt(LiaisonCache(old(DataOf(liaisonLayer))), plan.nodes))
      ensures SelectionOf(indusLayer) == old(SelectionOf(indusLayer)) - IndusDropped(old(DataOf(indusLayer)), removedUp)
    {
      if branches == [] {
        plan := Removal({}, {}, {}, {}, {});
        removedUp := {};
        assert LiaisonIdsAt(LiaisonCache(DataOf(liaisonLayer)), {}) == {};
        assert IndusIdsAt(LiaisonCache(DataOf(liaisonLayer)), {}) == {};
        return;
      }
      removedUp := nodeOps.BulkDeselectUnselectedBranchesOptimized(node, branches, chosen);
      plan := BulkPlan(Cached(nodeOps.Incoming()), branches, chosen);
    }

    /** 5.a: the downstream walk on the selection from the node, deselected with its liaisons and industrials. */
    method PurgeDownstream(node: string) returns (ghost down: WalkOut, removed: set<string>)
      requires Ready() && Strip(node) == node && node != ""
      modifies nodeOps, canalLayer, fosseLayer, liaisonLayer, indusLayer
      ensures Ready()
      ensures down == CachedWalk(EdgeCache(old(DataOf(canalLayer)), old(DataOf(fosseLayer)), Down), Down, OnSelection(old(SelectionOf(canalLayer)), old(SelectionOf(fosseLayer))), node)
      ensures removed == (if liaisonLayer != null then IndusIdsAt(LiaisonCache(DataOf(liaisonLayer)), down.nodes) else {})
      ensures SelectionOf(canalLayer) == old(SelectionOf(canalLayer)) - down.cids
      ensures SelectionOf(fosseLayer) == old(SelectionOf(fosseLayer)) - down.fids
      ensures SelectionOf(liaisonLayer) == old(SelectionOf(liaisonLayer)) - LiaisonIdsAt(LiaisonCache(DataOf(liaisonLayer)), down.nodes)
      ensures SelectionOf(indusLayer) == old(SelectionOf(indusLayer)) - IndusDropped(DataOf(indusLayer), removed)
    {
      ghost var cache := EdgeCache(DataOf(canalLayer), DataOf(fosseLayer), Down);
      var selC, selF := SelectionOf(canalLayer), SelectionOf(fosseLayer);
      var cids, fids, nodes := WalkDownstreamOn(node, selC, selF, cache);
      down := WalkOut(cids, fids, nodes);
      removed := DeselectWalk(cids, fids, nodes);
    }

    /** The optimized downstream walk on sets of selected ids from a stripped node. */
    method WalkDownstreamOn(node: string, selC: set<int>, selF: set<int>, ghost cache: EdgeMap) returns (cids: set<int>, fids: set<int>, nodes: set<string>)
      requires Ready() && Strip(node) == node && node != ""
      requires cache == EdgeCache(DataOf(canalLayer), DataOf(fosseLayer), Down)
      modifies nodeOps
      ensures Ready()
      ensures WalkOut(cids, fids, nodes) == CachedWalk(cache, Down, OnSelection(selC, selF), node)
    {
      assert nodeOps.Outgoing() == cache;
      cids, fids, nodes := nodeOps.WalkDownstreamOnSelectedOptimized(Some(node), selC, selF);
    }

    /** The edges of a walk are deselected, then the liaisons at its nodes and the industrials they name. */
    method DeselectWalk(cids: set<int>, fids: set<int>, nodes: set<string>) returns (removed: set<string>)
      requires Ready()
      modifies nodeOps, canalLayer, fosseLayer, liaisonLayer, indusLayer
      ensures Ready()
      ensures removed == (if liaisonLayer != null then IndusIdsAt(LiaisonCache(DataOf(liaisonLayer)), nodes) else {})
      ensures SelectionOf(canalLayer) == old(SelectionOf(canalLayer)) - cids
      ensures SelectionOf(fosseLayer) == old(SelectionOf(fosseLayer)) - fids
      ensures SelectionOf(liaisonLayer) == old(SelectionOf(liaisonLayer)) - LiaisonIdsAt(LiaisonCache(DataOf(liaisonLayer)), nodes)
      ensures SelectionOf(indusLayer) == old(SelectionOf(indusLayer)) - IndusDropped(DataOf(indusLayer), removed)
    {
      DeselectEdges(cids, fids);
      removed := DeselectAtNodes(nodes);
    }

    /** The liaisons at the nodes and the industrials they name are deselected through the caches. */
    method DeselectAtNodes(nodes: set<string>) returns (removed: set<string>)
      requires Ready()
      modifies nodeOps, liaisonLayer, indusLayer
      ensures Ready()
      ensures removed == (if liaisonLayer != null then IndusIdsAt(LiaisonCache(DataOf(liaisonLayer)), nodes) else {})
      ensures SelectionOf(canalLayer) == old(SelectionOf(canalLayer)) && SelectionOf(fosseLayer) == old(SelectionOf(fosseLayer))
      ensures SelectionOf(liaisonLayer) == old(SelectionOf(liaisonLayer)) - LiaisonIdsAt(LiaisonCache(DataOf(liaisonLayer)), nodes)
      ensures SelectionOf(indusLayer) == old(SelectionOf(indusLayer)) - IndusDropped(DataOf(indusLayer), removed)
    {
      removed := nodeOps.DeselectLiaisonsAndIndusFromNodesOptimized(nodes);
      assert removed - {""} == removed;
      assert LiaisonIdsAt(LiaisonCache(DataOf(liaisonLayer)), {}) == {};
      assert IndusIdsAt(LiaisonCache(DataOf(liaisonLayer)), {}) == {};
    }

    /**
     * 5.b: the KEEP set, the kept branches and their upstream on the
     * selection, which is read again before every walk and does not change.
     */
    method BuildKeep(branches: seq<Branch>, chosen: set<int>, ghost incoming: EdgeMap, ghost selC: set<int>, ghost selF: set<int>)
      returns (keep: WalkOut)
      requires Ready()
      requires incoming == EdgeCache(DataOf(canalLayer), DataOf(fosseLayer), Up)
      requires selC == SelectionOf(canalLayer) && selF == SelectionOf(fosseLayer)
      modifies nodeOps
      ensures Ready() && Selected() == old(Selected())
      ensures keep == KeepPlan(incoming, branches, chosen, selC, selF)
    {
      keep := WalkOut({}, {}, {});
      var i := 0;
      while i < |branches|
        invariant 0 <= i <= |branches|
        invariant Ready() && nodeOps.Incoming() == incoming
        invariant selC == SelectionOf(canalLayer) && selF == SelectionOf(fosseLayer)
        invariant keep == KeepPlan(incoming, branches[..i], chosen, selC, selF)
      {
        var b := branches[i];
        assert branches[..i + 1][..i] == branches[..i];
        if b.fid in chosen {
          var u := WalkOut({}, {}, {});
          if Truthy(b.amont) {
            var sel := SelectedIdSets();
            var kc, kf, kn := nodeOps.WalkUpstreamOnSelectedOptimized(b.amont, sel.0, sel.1);
            u := WalkOut(kc, kf, kn);
          }
          keep := KeepBranch(keep, b, u);
        }
        i := i + 1;
      }
      assert branches[..i] == branches;
    }

    /** 5.c: everything selected outside KEEP is deselected, then the liaisons at the ends it leaves behind. */
    method PurgeRest(node: string, keep: WalkOut) returns (ghost orphans: set<string>, removed: set<string>)
      requires Ready()
      modifies nodeOps, canalLayer, fosseLayer, liaisonLayer, indusLayer
      ensures Ready()
      ensures orphans == OrphanNodes(DataOf(canalLayer), DataOf(fosseLayer), old(SelectionOf(canalLayer)) - keep.cids,
                                     old(SelectionOf(fosseLayer)) - keep.fids, keep.nodes + {node})
      ensures removed == (if liaisonLayer != null then IndusIdsAt(LiaisonCache(DataOf(liaisonLayer)), orphans) else {})
      ensures SelectionOf(canalLayer) == old(SelectionOf(canalLayer)) * keep.cids
      ensures SelectionOf(fosseLayer) == old(SelectionOf(fosseLayer)) * keep.fids
      ensures SelectionOf(liaisonLayer) == old(SelectionOf(liaisonLayer)) - LiaisonIdsAt(LiaisonCache(DataOf(liaisonLayer)), orphans)
      ensures SelectionOf(indusLayer) == old(SelectionOf(indusLayer)) - IndusDropped(DataOf(indusLayer), removed)
    {
      var sel := SelectedIdSets();
      var remC := sel.0 - keep.cids;
      var remF := sel.1 - keep.fids;
      DeselectEdges(remC, remF);
      assert SelectionOf(canalLayer) == sel.0 * keep.cids && SelectionOf(fosseLayer) == sel.1 * keep.fids;
      var fromC := NodesFromIds(canalLayer, remC);
      var fromF := NodesFromIds(fosseLayer, remF);
      var nodesRemoved := fromC + fromF - (keep.nodes + {node});
      orphans := nodesRemoved;
      removed := {};
      if nodesRemoved != {} {
        removed := DeselectAtNodes(nodesRemoved);
      } else {
        assert LiaisonIdsAt(LiaisonCache(DataOf(liaisonLayer)), {}) == {};
        assert IndusIdsAt(LiaisonCache(DataOf(liaisonLayer)), {}) == {};
        assert IndusDropped(DataOf(indusLayer), {}) == {};
      }
    }

    /**
     * 5.c, then step 6 of a polluted visit: the industrial table loses the
     * industrials removed upstream, downstream and by the purge.
     */
    method PurgeRestAndExclude(node: string, keep: WalkOut, ghost rows: (Table, Table), removedUp: set<string>, rd: set<string>)
      returns (ghost orphans: set<string>, removed: set<string>)
      requires Ready() && rows == DockRows()
      modifies nodeOps, canalLayer, fosseLayer, liaisonLayer, indusLayer, industrialDock
      ensures Ready()
      ensures orphans == OrphanNodes(DataOf(canalLayer), DataOf(fosseLayer), old(SelectionOf(canalLayer)) - keep.cids,
                                     old(SelectionOf(fosseLayer)) - keep.fids, keep.nodes + {node})
      ensures removed == (if liaisonLayer != null then IndusIdsAt(LiaisonCache(DataOf(liaisonLayer)), orphans) else {})
      ensures SelectionOf(canalLayer) == old(SelectionOf(canalLayer)) * keep.cids
      ensures SelectionOf(fosseLayer) == old(SelectionOf(fosseLayer)) * keep.fids
      ensures SelectionOf(liaisonLayer) == old(SelectionOf(liaisonLayer)) - LiaisonIdsAt(LiaisonCache(DataOf(liaisonLayer)), orphans)
      ensures SelectionOf(indusLayer) == old(SelectionOf(indusLayer)) - IndusDropped(DataOf(indusLayer), removed)
      ensures DockRows() == Excluded(rows, removedUp + (rd + removed))
    {
      orphans, removed := PurgeRest(node, keep);
      ExcludeFromDock(removedUp + (rd + removed));
    }

    /**
     * Steps 5.a to 5.c of a polluted visit, after the branch step has
     * deselected plan from the selections before.
     */
    method PrunePolluted(node: string, branches: seq<Branch>, chosen: set<int>,
                         ghost canal: Option<LayerData>, ghost fosse: Option<LayerData>, ghost liaison: Option<LayerData>,
                         ghost indus: Option<LayerData>, ghost before: Selections, ghost rows: (Table, Table),
                         ghost plan: Removal, removedUp: set<string>)
      returns (ghost after: Selections, ghost t: VisitTrace, removedDown: set<string>)
      requires Ready() && Strip(node) == node && node != ""
      requires canal == DataOf(canalLayer) && fosse == DataOf(fosseLayer) && liaison == DataOf(liaisonLayer) && indus == DataOf(indusLayer)
      requires plan == BulkPlan(Cached(EdgeCache(canal, fosse, Up)), branches, chosen)
      requires removedUp == plan.indus + IndusIdsAt(LiaisonCache(liaison), plan.nodes)
      requires SelectionOf(canalLayer) == before.canal - plan.cids && SelectionOf(fosseLayer) == before.fosse - plan.fids
      requires SelectionOf(liaisonLayer) == before.liaison - (plan.lids + LiaisonIdsAt(LiaisonCache(liaison), plan.nodes))
      requires SelectionOf(indusLayer) == before.indus - IndusDropped(indus, removedUp)
      requires rows == DockRows()
      modifies nodeOps, canalLayer, fosseLayer, liaisonLayer, indusLayer, industrialDock
      ensures Ready() && after == Selected() && DockRows() == Excluded(rows, removedUp + removedDown)
      ensures Pruned(canal, fosse, liaison, indus, node, branches, chosen, true, before, after, plan, t, removedUp, removedDown)
    {
      ghost var s1 := Selected();
      ghost var incoming := EdgeCache(canal, fosse, Up);
      var down, rd := PurgeDownstream(node);
      ghost var s2 := Selected();
      var downC, downF := SelectionOf(canalLayer), SelectionOf(fosseLayer);
      var keep := BuildKeep(branches, chosen, incoming, downC, downF);
      var orphans, rr := PurgeRestAndExclude(node, keep, rows, removedUp, rd);
      t := VisitTrace(down, keep, orphans);
      removedDown := rd + rr;
      after := Selected();
      PollutedPurgeSteps(canal, fosse, liaison, node, branches, chosen, s1, s2, after, t, rd, rr);
      PrunedPolluted(canal, fosse, liaison, indus, node, branches, chosen, before, after, plan, t, removedUp, removedDown, rd, rr);
    }

    /** Steps 4 and 6 of a visit without pollution: the bulk deselection and the table update. */
    method PruneClean(node: string, branches: seq<Branch>, chosen: set<int>)
      returns (ghost after: Selections, ghost plan: Removal, ghost t: VisitTrace, removedUp: set<string>, removedDown: set<string>)
      requires Ready()
      modifies nodeOps, canalLayer, fosseLayer, liaisonLayer, indusLayer, industrialDock
      ensures Ready() && after == Selected() && removedDown == {}
      ensures DockRows() == Excluded(old(DockRows()), removedUp + removedDown)
      ensures Pruned(old(DataOf(canalLayer)), old(DataOf(fosseLayer)), old(DataOf(liaisonLayer)), old(DataOf(indusLayer)),
                     node, branches, chosen, false, old(Selected()), after, plan, t, removedUp, removedDown)
    {
      ghost var canal, fosse, liaison, indus := DataOf(canalLayer), DataOf(fosseLayer), DataOf(liaisonLayer), DataOf(indusLayer);
      ghost var before := Selected();
      var up;
      plan, up := DeselectUpstream(node, branches, chosen);
      removedUp, removedDown := up, {};
      t := VisitTrace(WalkOut({}, {}, {}), WalkOut({}, {}, {}), {});
      after := Selected();
      ExcludeFromDock(removedUp + removedDown);
      PrunedClean(canal, fosse, liaison, indus, node, branches, chosen, before, after, plan, t, removedUp, removedDown);
    }

    /** Steps 4 to 6 of a polluted visit: the bulk deselection, the purge and the table update. */
    method PruneDirty(node: string, branches: seq<Branch>, chosen: set<int>)
      returns (ghost after: Selections, ghost plan: Removal, ghost t: VisitTrace, removedUp: set<string>, removedDown: set<string>)
      requires Ready() && Strip(node) == node && node != ""
      modifies nodeOps, canalLayer, fosseLayer, liaisonLayer, indusLayer, industrialDock
      ensures Ready() && after == Selected()
      ensures DockRows() == Excluded(old(DockRows()), removedUp + removedDown)
      ensures Pruned(old(DataOf(canalLayer)), old(DataOf(fosseLayer)), old(DataOf(liaisonLayer)), old(DataOf(indusLayer)),
                     node, branches, chosen, true, old(Selected()), after, plan, t, removedUp, removedDown)
    {
      var up;
      plan, up := DeselectUpstream(node, branches, chosen);
      removedUp := up;
      after, t, removedDown := PrunePolluted(node, branches, chosen,
                                             old(DataOf(canalLayer)), old(DataOf(fosseLayer)), old(DataOf(liaisonLayer)), old(DataOf(indusLayer)),
                                             old(Selected()), old(DockRows()), plan, removedUp);
    }

    /**
     * Steps 4 and 5 of `_visit` at a stripped, non-empty node: the bulk
     * deselection of the discarded branches and, when polluted, the purge.
     */
    method Prune(node: string, branches: seq<Branch>, chosen: set<int>, polluted: bool,
                 ghost canal: Option<LayerData>, ghost fosse: Option<LayerData>, ghost liaison: Option<LayerData>,
                 ghost indus: Option<LayerData>, ghost before: Selections, ghost rows: (Table, Table))
      returns (ghost after: Selections, ghost plan: Removal, ghost t: VisitTrace, removedUp: set<string>, removedDown: set<string>)
      requires Ready() && Strip(node) == node && node != ""
      requires canal == DataOf(canalLayer) && fosse == DataOf(fosseLayer) && liaison == DataOf(liaisonLayer) && indus == DataOf(indusLayer)
      requires before == Selected() && rows == DockRows()
      modifies nodeOps, canalLayer, fosseLayer, liaisonLayer, indusLayer, industrialDock
      ensures Ready() && after == Selected()
      ensures DockRows() == Excluded(rows, removedUp + removedDown)
      ensures Pruned(canal, fosse, liaison, indus, node, branches, chosen, polluted, before, after, plan, t, removedUp, removedDown)
    {
      if polluted {
        after, plan, t, removedUp, removedDown := PruneDirty(node, branches, chosen);
      } else {
        after, plan, t, removedUp, removedDown := PruneClean(node, branches, chosen);
      }
    }

    /** Step 6: the removed industrial ids leave the industrial table, when there is one. */
    method ExcludeFromDock(removed: set<string>)
      modifies industrialDock
      ensures DockRows() == Excluded(old(DockRows()), removed)
    {
      if industrialDock == null {
        assert Without(map[], removed) == map[];
        return;
      }
      if removed != {} {
        var ids := SortedList(removed);
        assert Elems(ids) == removed;
        industrialDock.ExcludeIds(ids);
      }
    }

    /**
     * Steps 2 to 6 of a logged visit at a stripped, non-empty node: the
     * branches, the kept fids (None when the branch dialog is cancelled,
     * which changes nothing), the pruning and the table update.
     */
    method VisitBranches(node: string, polluted: bool, ticked: Option<set<int>>,
                         ghost canal: Option<LayerData>, ghost fosse: Option<LayerData>, ghost liaison: Option<LayerData>,
                         ghost indus: Option<LayerData>, ghost before: Selections, ghost rows: (Table, Table))
      returns (branches: seq<Branch>, ghost after: Selections, ghost plan: Removal, ghost t: VisitTrace,
               removedUp: set<string>, removedDown: set<string>)
      requires Ready() && Strip(node) == node && node != ""
      requires canal == DataOf(canalLayer) && fosse == DataOf(fosseLayer) && liaison == DataOf(liaisonLayer) && indus == DataOf(indusLayer)
      requires before == Selected() && rows == DockRows()
      modifies nodeOps, canalLayer, fosseLayer, liaisonLayer, indusLayer, industrialDock
      ensures Ready() && after == Selected()
      ensures branches == UpstreamBranches(canal, fosse, liaison, node)
      ensures ChosenKeep(branches, polluted, ticked).None? ==> after == before && DockRows() == rows
      ensures ChosenKeep(branches, polluted, ticked).Some? ==>
        Pruned(canal, fosse, liaison, indus, node, branches, ChosenKeep(branches, polluted, ticked).value, polluted,
               before, after, plan, t, removedUp, removedDown) &&
        DockRows() == Excluded(rows, removedUp + removedDown)
    {
      after, plan, t, removedUp, removedDown := before, Removal({}, {}, {}, {}, {}), VisitTrace(WalkOut({}, {}, {}), WalkOut({}, {}, {}), {}), {}, {};
      branches := CollectBranches(node);
      if ChosenKeep(branches, polluted, ticked).None? {
        return;
      }
      after, plan, t, removedUp, removedDown :=
        Prune(node, branches, ChosenKeep(branches, polluted, ticked).value, polluted, canal, fosse, liaison, indus, before, rows);
    }

    /** `self.visited.append({'id': node, 'pollution': polluted})`. */
    method LogVisit(node: string, polluted: bool)
      modifies this`visited
      ensures visited == old(visited) + [VisitRecord(node, polluted)]
      ensures Selected() == old(Selected()) && DockRows() == old(DockRows()) && (Ready() <==> old(Ready()))
    {
      visited := visited + [VisitRecord(node, polluted)];
    }

    /** A visit past the pollution question: it is logged, then steps 2 to 6. */
    method VisitNode(node: string, polluted: bool, ticked: Option<set<int>>, ghost log: seq<VisitRecord>,
                     ghost canal: Option<LayerData>, ghost fosse: Option<LayerData>, ghost liaison: Option<LayerData>,
                     ghost indus: Option<LayerData>, ghost before: Selections, ghost rows: (Table, Table))
      returns (branches: seq<Branch>, ghost after: Selections, ghost plan: Removal, ghost t: VisitTrace,
               removedUp: set<string>, removedDown: set<string>)
      requires Ready() && Strip(node) == node && node != "" && log == visited
      requires canal == DataOf(canalLayer) && fosse == DataOf(fosseLayer) && liaison == DataOf(liaisonLayer) && indus == DataOf(indusLayer)
      requires before == Selected() && rows == DockRows()
      modifies this`visited, nodeOps, canalLayer, fosseLayer, liaisonLayer, indusLayer, industrialDock
      ensures Ready() && after == Selected()
      ensures visited == log + [VisitRecord(node, polluted)]
      ensures branches == UpstreamBranches(canal, fosse, liaison, node)
      ensures ChosenKeep(branches, polluted, ticked).None? ==> after == before && DockRows() == rows
      ensures ChosenKeep(branches, polluted, ticked).Some? ==>
        Pruned(canal, fosse, liaison, indus, node, branches, ChosenKeep(branches, polluted, ticked).value, polluted,
               before, after, plan, t, removedUp, removedDown) &&
        DockRows() == Excluded(rows, removedUp + removedDown)
    {
      LogVisit(node, polluted);
      branches, after, plan, t, removedUp, removedDown :=
        VisitBranches(node, polluted, ticked, canal, fosse, liaison, indus, before, rows);
    }

    /**
     * `_visit()`, given the text of the visit field, the answer to the
     * pollution question and the fids ticked in the branch dialog (None when
     * the dialog is cancelled). An empty node leaves everything as it was; a
     * cancelled question only refreshes the node operations; otherwise the
     * visit is logged and, unless the branch dialog is cancelled, the
     * selections are pruned and every industrial removed on the way leaves
     * the industrial table.
     */
    method Visit(input: string, answer: Answer, ticked: Option<set<int>>)
      returns (branches: seq<Branch>, ghost after: Selections, ghost plan: Removal, ghost t: VisitTrace,
               removedUp: set<string>, removedDown: set<string>)
      requires Valid()
      modifies this`nodeOps, this`visited, nodeOps, canalLayer, fosseLayer, liaisonLayer, indusLayer, industrialDock
      ensures after == Selected()
      ensures Strip(input) == "" || answer == Cancel ==>
        visited == old(visited) && after == old(Selected()) && DockRows() == old(DockRows())
      ensures Strip(input) != "" ==> Ready()
      ensures Strip(input) != "" && answer != Cancel ==>
        visited == old(visited) + [VisitRecord(Strip(input), answer == Yes)] &&
        branches == UpstreamBranches(old(DataOf(canalLayer)), old(DataOf(fosseLayer)), old(DataOf(liaisonLayer)), Strip(input))
      ensures Strip(input) != "" && answer != Cancel && ChosenKeep(branches, answer == Yes, ticked).None? ==>
        after == old(Selected()) && DockRows() == old(DockRows())
      ensures Strip(input) != "" && answer != Cancel && ChosenKeep(branches, answer == Yes, ticked).Some? ==>
        Pruned(old(DataOf(canalLayer)), old(DataOf(fosseLayer)), old(DataOf(liaisonLayer)), old(DataOf(indusLayer)),
               Strip(input), branches, ChosenKeep(branches, answer == Yes, ticked).value, answer == Yes,
               old(Selected()), after, plan, t, removedUp, removedDown) &&
        DockRows() == Excluded(old(DockRows()), removedUp + removedDown)
    {
      after := Selected();
      branches, plan, t, removedUp, removedDown := [], Removal({}, {}, {}, {}, {}), VisitTrace(WalkOut({}, {}, {}), WalkOut({}, {}, {}), {}), {}, {};
      if Strip(input) == "" {
        return;
      }
      StripIdempotent(input);
      PrepareOps();
      if answer == Cancel {
        return;
      }
      branches, after, plan, t, removedUp, removedDown :=
        VisitNode(Strip(input), answer == Yes, ticked, old(visited), old(DataOf(canalLayer)), old(DataOf(fosseLayer)),
                  old(DataOf(liaisonLayer)), old(DataOf(indusLayer)), old(Selected()), old(DockRows()));
    }
  }
}
