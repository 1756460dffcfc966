# cheminer_indus — a Dafny model of the network tracer and the visit logic

`cheminer_indus` is a QGIS plugin for following pollution through a
sewer network. The network is a set of edges in two layers, canals
(`canal`) and ditches (`fosse`). Each edge goes from a node `idnini`
(upstream end) to a node `idnterm` (downstream end). Nodes are the
structures (`ouvrages`) of the network. A third layer of liaisons
(`LIAISON_INDUS`) attaches industrial sites to nodes through
`id_ouvrage` and `id_industriel`. A fourth layer holds the industrial
sites themselves.

The model covers the following parts of the plugin:

* **Tracer** (`tracer.dfy`). `NetworkTracer.trace` walks the canal and
  ditch layers upstream or downstream from a start node. It resolves
  field names through an alias table cached per layer, and applies the
  category and function filters. It returns the edge ids it crossed and
  keeps the total length and the set of flow types. The model proves the
  following:
  * the visited nodes are exactly the nodes reachable from the start
    through edges that pass the filters;
  * the reported ids are exactly the edges that leave a reached node;
  * the statistics are the sums over those edges.
* **Adjacency caches and walks** (`network.dfy`, `walks.dfy`,
  `node_ops.dfy`). `OptimizedNodeOps` keeps three caches:
  * edges by downstream end (incoming);
  * edges by upstream end (outgoing);
  * liaisons by node.

  It runs four depth-first walks on them: upstream or downstream, each
  over the whole network or only on the current selection. It also
  deselects the liaisons and industrials hanging off a set of nodes, and
  deselects, in bulk, everything upstream of the branches the user did
  not keep. The dock's legacy walks do the same through per-node
  attribute queries. One generic walk (`Walks.WalkOn`) serves both kinds
  of adjacency. Its result is proved to be the reachability closure
  (`Walks.WalkSpec`) over `Graph.Reaches`.
* **The visit** (`main_dock.dfy`). `MainDock._visit` runs these steps:
  1. record the visited node;
  2. list the branches arriving at the node;
  3. ask whether the node is polluted and which branches to keep;
  4. deselect the upstream of the discarded branches;
  5. if the node is polluted, purge the selection: downstream of the
     node, then everything outside KEEP (the kept branches and their
     upstream on the selection), then the liaisons of orphaned nodes;
  6. remove the industrials of the deselected liaisons from the
     industrial dock.

  The dialog answers are parameters. The resulting selections are
  characterised by `MainDock.Pruned`, and `MainDock.PrunedSelection`
  states what a visit never keeps and always keeps.
* **Industrials** (`industrials.dfy`). `IndustrialsService` covers:
  * selecting liaisons from nodes;
  * selecting industrials from the selected liaisons;
  * fetching an industrial's attribute row, with its usual renamings.
* **Diagnostics** (`diagnostics.dfy`). `Diagnostics.run_selected_only`
  covers:
  * EP/EU network-type inversions at both ends of every selected canal,
    with the status read from the `inversion` code;
  * diameter reductions at a node with exactly one outgoing canal.
* **PV analysis** (`pv_analyzer.dfy`). `PVAnalyzer` covers:
  * the list of non-conforming inspection reports (PV) near the path;
  * the active list once branches are excluded;
  * designating a polluter;
  * the summary of the polluter.
* **Industrial dock** (`industrial_dock.dfy`). `IndustrialDock` covers:
  * the rows and the column order;
  * the comma-separated search filter;
  * excluding ids;
  * moving fields between the filter list and the available list.

Shared pieces are `common.dfy` (Python's `str.strip` and the QGIS expression
function `trim`, which remove different blanks, ASCII case mapping,
`split`/`join`, `int()` and `float()` on decimal text), `layers.dfy`
(features with a fid and an attribute map; a class for a layer's
selection), `graph.dfy` (paths, reachability, a frontier invariant for
depth-first search) and `ordering.dfy` (lexicographic order and a sorted
copy, for Python's `sorted`).

An attribute is an `Option<string>`, where `None` is NULL. A field that
is absent from a feature is a key missing from its attribute map. The
sentinel `INCONNU` is compared in three different ways by the source:

* exactly;
* after `strip()`;
* case-insensitively, via `upper()`.

The model keeps the three tests apart.

## Model

| member | source | states |
|---|---|---|
| Common.Strip | cheminer_indus/gui/main_dock_optimized.py:45-46 | the result is the input with leading and trailing Python whitespace (the separators 0x1C-0x1F included) removed: a contiguous slice, everything cut is whitespace, and neither end of the result is whitespace |
| Common.Trim | cheminer_indus/gui/main_dock.py:822 | the QGIS expression `trim()`: the input with leading and trailing QGIS blanks removed, a contiguous slice whose cut characters are all blanks and whose ends are not; the separators 0x1C-0x1F are not blanks here, unlike for `Strip` |
| Common.StripEmpty | cheminer_indus/gui/industrial_dock.py:478 | a text strips to empty exactly when it is all whitespace |
| Common.StripIdempotent | cheminer_indus/gui/main_dock.py:787-790 | stripping twice is stripping once |
| Common.Upper | cheminer_indus/gui/main_dock_optimized.py:162 | same length, each character mapped to upper case |
| Common.Lower | cheminer_indus/gui/industrial_dock.py:498-500 | same length, each character mapped to lower case |
| Common.IndexOf | cheminer_indus/gui/industrial_dock.py:478 | the first position of the separator, with no earlier occurrence |
| Common.Split | cheminer_indus/gui/industrial_dock.py:478 | `split(",")` gives at least one piece, and no piece holds the separator |
| Common.JoinSplit | cheminer_indus/gui/industrial_dock.py:478 | joining the pieces of a split with the separator gives back the text |
| Common.ParseInt | cheminer_indus/core/diagnostics.py:95-99 | `int()` accepts exactly the texts of the grammar: an optional sign, then one or more digits (so "+", "-" and "1a" are rejected); a negative result needs a '-' sign |
| Common.ParseLeadingZero | cheminer_indus/core/diagnostics.py:95-99 | a leading zero before a digit changes nothing, signed or not (`int("007") == int("7")`) |
| Common.ParseSigned | cheminer_indus/core/diagnostics.py:95-99 | a '+' keeps the value of the digits after it, a '-' negates it, and neither makes rejected text parse |
| Common.ShowDigitsValue | cheminer_indus/core/diagnostics.py:95-99 | canonical digit text is `str()` of its value; with ParseLeadingZero, ParseSigned and ParseShowInt this gives the value of every accepted text |
| Common.ParseShowInt | cheminer_indus/core/diagnostics.py:95-99 | `int()` of the decimal text of any integer gives that integer back |
| Common.ShowNatValue | cheminer_indus/core/diagnostics.py:95-99 | the decimal text of a natural is all digits and denotes that natural |
| Common.ParseDecimalOfNat | cheminer_indus/core/tracer.py:127-129 | `float()` of the decimal text of a natural is that natural |
| Common.NoDupSnoc | cheminer_indus/core/tracer.py:215-226 | appending an element not yet present keeps a list free of repeats |
| Layers.FeaturesWithFids | cheminer_indus/core/diagnostics.py:42-44 | `setFilterFids`: exactly the features whose fid is requested |
| Layers.FirstWith | cheminer_indus/core/diagnostics.py:59 | `next(getFeatures(expr), None)`: the first feature with the attribute value, or None when no feature has it |
| Layers.FindFirstWith | cheminer_indus/core/industrials.py:98-114 | the scanning loop returns the first matching feature |
| Layers.SameFidSameFeature | cheminer_indus/core/industrials.py:69 | in a layer, a fid names a single feature |
| Ordering.SortedList | cheminer_indus/core/industrials.py:73 | `sorted(set)`: sorted, without repeats, the same elements, one per member |
| Ordering.SortedUnique | cheminer_indus/core/industrials.py:73 | two sorted repeat-free lists with the same elements are equal, so `sorted` is determined by its set |
| Ordering.Least | cheminer_indus/gui/industrial_dock.py:317 | the least element of a non-empty set in lexicographic order |
| Ordering.LexLeTotal | cheminer_indus/gui/industrial_dock.py:317 | any two strings are comparable |
| Ordering.LexLeAntisym | cheminer_indus/gui/industrial_dock.py:317 | strings each before the other are equal |
| Ordering.LexLeTrans | cheminer_indus/gui/industrial_dock.py:317 | the string order is transitive |
| Tracer.MergeAlias | cheminer_indus/core/tracer.py:63-73 | a non-empty alias list given by the caller replaces the default one; other defaults stay; no other key appears |
| Tracer.FirstAlias | cheminer_indus/core/tracer.py:99-106 | the first alias that is a field of the layer, or None when none is |
| Tracer.FeatValue | cheminer_indus/core/tracer.py:108-119 | an aliased value is never empty: NULL and "" read as None |
| Tracer.Passes | cheminer_indus/core/tracer.py:136-154 | empty filters accept every edge, and so does a layer with neither a category nor a function field |
| Tracer.RejectsIff | cheminer_indus/core/tracer.py:141-152 | a filter rejects exactly when it is set, the edge has a value for it, and the value differs |
| Tracer.PassesIff | cheminer_indus/core/tracer.py:136-154 | an edge fails the filters exactly when the category or the function filter rejects it |
| Tracer.NextFrom | cheminer_indus/core/tracer.py:160-195 | an edge leads on only when its key end is the node and its far end is set, not INCONNU, and is that end's text, when neither stored end is INCONNU, and when it passes the filters |
| Tracer.CollectProps | cheminer_indus/core/tracer.py:180-194 | the steps of a layer are exactly its features that lead on, each tagged with its kind, layer and next node, and they are distinct |
| Tracer.StepsFrom | cheminer_indus/core/tracer.py:160-195 | every step from a node leads on from that node: canal steps first, then ditch steps |
| Tracer.StepsFromDistinct | cheminer_indus/core/tracer.py:160-195 | no edge is listed twice among a node's steps |
| Tracer.UniverseClosed | cheminer_indus/core/tracer.py:213-234 | the nodes the walk can push lie in a finite set closed under the step relation |
| Tracer.Reached | cheminer_indus/core/tracer.py:213-234 | the reached nodes hold the start and are exactly the nodes reachable from it |
| Tracer.ConcatMember | cheminer_indus/core/tracer.py:221-234 | a step is reported exactly when it leaves a visited node |
| Tracer.KindFidsIn | cheminer_indus/core/tracer.py:221-226 | the reported canal (or ditch) ids are exactly the fids of the steps of that kind |
| Tracer.KindFidsAppend | cheminer_indus/core/tracer.py:221-226 | the ids of two step lists are the ids of each |
| Tracer.KindFidsNoDup | cheminer_indus/core/tracer.py:215-226 | distinct steps give ids without repeats |
| Tracer.SumLenAppend | cheminer_indus/core/tracer.py:229 | the total length adds up over concatenation |
| Tracer.FluxTypes | cheminer_indus/core/tracer.py:231-234 | only non-empty flow types are collected |
| Tracer.FluxTypesAppend | cheminer_indus/core/tracer.py:231-234 | the flow types of two step lists are the union of each |
| Tracer.StepsApart | cheminer_indus/core/tracer.py:160-195 | steps from two different nodes are different edges |
| Tracer.ConcatDistinct | cheminer_indus/core/tracer.py:213-234 | the steps of repeat-free visited nodes are distinct |
| Tracer.ReportedIds | cheminer_indus/core/tracer.py:197-240 | an id is reported exactly when its edge of that kind leaves a reached node and leads on |
| Tracer.NetworkTracer.constructor | cheminer_indus/core/tracer.py:52-80 | layers as given; aliases merged; filters default when None or empty; cache empty; statistics zero |
| Tracer.NetworkTracer.FirstPresent | cheminer_indus/core/tracer.py:99-106 | the candidate loop returns the first alias present among the names |
| Tracer.NetworkTracer.ResolveFieldName | cheminer_indus/core/tracer.py:89-106 | a cached answer is returned as cached; otherwise the first present alias is stored and returned; the result is the layer's field name for the key |
| Tracer.NetworkTracer.FeatValByKey | cheminer_indus/core/tracer.py:108-119 | the aliased value of the feature |
| Tracer.NetworkTracer.LenOf | cheminer_indus/core/tracer.py:121-134 | the `len` field parsed when set, the geometry length otherwise |
| Tracer.NetworkTracer.CheckFilter | cheminer_indus/core/tracer.py:141-152 | one filter accepts unless it is set and the edge's value differs |
| Tracer.NetworkTracer.PassFilters | cheminer_indus/core/tracer.py:136-154 | the edge passes both filters |
| Tracer.NetworkTracer.EdgeNext | cheminer_indus/core/tracer.py:166-194 | the next node one edge leads to, if any |
| Tracer.NetworkTracer.ScanOne | cheminer_indus/core/tracer.py:166-194 | one feature adds its step, if it leads on |
| Tracer.NetworkTracer.ScanLayer | cheminer_indus/core/tracer.py:166-194 | the loop over a layer builds exactly its steps from the node |
| Tracer.NetworkTracer.IterEdgesFromNode | cheminer_indus/core/tracer.py:160-195 | the steps from a node: canal layer, then ditch layer |
| Tracer.NetworkTracer.Record | cheminer_indus/core/tracer.py:221-238 | one step adds its id, its length and its flow type, and pushes its next node when it is unvisited and not INCONNU |
| Tracer.NetworkTracer.RecordAll | cheminer_indus/core/tracer.py:221-238 | the loop over a node's steps adds their ids, lengths and flow types, and pushes exactly their unvisited next nodes |
| Tracer.NetworkTracer.ExpandNode | cheminer_indus/core/tracer.py:215-238 | visiting a node keeps the statistics equal to those of the visited nodes and pushes exactly its unvisited successors |
| Tracer.NetworkTracer.Trace | cheminer_indus/core/tracer.py:197-240 | the visited nodes are exactly those reachable from the start, each visited once; the ids are the reported edges, without repeats; the length and the flow types are those of the reported edges |
| Walks.NextOf | cheminer_indus/gui/main_dock_optimized.py:160-165 | the next node pushed is set and not INCONNU in any case |
| Walks.BoundedClosed | cheminer_indus/gui/main_dock_optimized.py:139-165 | a finite node set holding every pushed node is closed under the walk's successor relation |
| Walks.WalkSpec | cheminer_indus/gui/main_dock_optimized.py:128-167 | the walk's nodes hold the start and are exactly those reachable through admitted edges |
| Walks.TakeEdge | cheminer_indus/gui/main_dock_optimized.py:150-165 | an admitted, unseen edge adds its fid to its kind's set and pushes its next node; other edges change nothing |
| Walks.Expand | cheminer_indus/gui/main_dock_optimized.py:148-165 | the loop over a node's edges adds the admitted ids and pushes only next nodes of those edges, all of them when the edges are new |
| Walks.WalkOn | cheminer_indus/gui/main_dock_optimized.py:128-167 | the walk's nodes are reachable from the start, and with unique edge tags the result equals `WalkSpec` |
| Network.Tag | cheminer_indus/gui/main_dock_optimized.py:41-51 | each feature tagged with its layer kind, in order |
| Network.KeyedAt | cheminer_indus/gui/main_dock_optimized.py:41-51 | the items filed under a key are exactly those whose key it is |
| Network.GroupByLookup | cheminer_indus/gui/main_dock_optimized.py:41-51 | grouping appends, under each key, the items with that key to what was there |
| Network.GroupByKeys | cheminer_indus/gui/main_dock_optimized.py:48-49 | a key is present exactly when it was present or some item has it |
| Network.KeyedAtDistinct | cheminer_indus/gui/main_dock_optimized.py:41-51 | the edges filed under one node are distinct |
| Network.TagDistinct | cheminer_indus/gui/main_dock_optimized.py:41-51 | features of one layer with distinct fids give distinct tagged edges |
| Network.EdgeKey | cheminer_indus/gui/main_dock_optimized.py:45-47 | an edge is filed under its stripped key end, which is non-empty, and only when neither stripped end is INCONNU |
| Network.EdgeCacheLookup | cheminer_indus/gui/main_dock_optimized.py:34-105 | a node's cache entry is its canal edges, then its ditch edges |
| Network.EdgeCacheEntries | cheminer_indus/gui/main_dock_optimized.py:34-105 | an edge is in a node's entry exactly when it belongs to one of the layers and is filed under that node |
| Network.EdgeCacheOrder | cheminer_indus/gui/main_dock_optimized.py:41-66 | in every entry the canal edges come before the ditch edges |
| Network.LiaisonKey | cheminer_indus/gui/main_dock_optimized.py:115-120 | a liaison is filed exactly when it has the field, and its stripped `id_ouvrage` is non-empty and not INCONNU in any case; it is filed under that stripped id |
| Network.LiaisonCacheEntries | cheminer_indus/gui/main_dock_optimized.py:107-126 | a node's liaisons are exactly the liaisons filed under it, and every key is a real node id |
| Network.QueryEdgesIff | cheminer_indus/gui/main_dock.py:947-996 | the legacy queries: incoming edges have `trim(idnterm)` equal to the node and `trim(idnini)` not INCONNU; outgoing edges have `trim(idnini)` equal to the stripped node |
| Network.EdgeCacheUnique | cheminer_indus/gui/main_dock_optimized.py:34-105 | the cache never files one edge under two nodes or twice under one |
| Network.QueryUnique | cheminer_indus/gui/main_dock.py:947-996 | the legacy queries never return one edge for two nodes |
| Network.CacheBounded | cheminer_indus/gui/main_dock_optimized.py:128-167 | the cached walk pushes only nodes from a finite set |
| Network.QueryBounded | cheminer_indus/gui/main_dock.py:959-1028 | the legacy walks push only nodes from a finite set; a downstream walk pushes only stripped nodes |
| Network.WalkWithinSelection | cheminer_indus/gui/main_dock_optimized.py:210-288 | a walk on the selection collects only selected ids |
| Network.FileEdge | cheminer_indus/gui/main_dock_optimized.py:44-51 | one edge is appended under its key, or skipped |
| Network.AddEdges | cheminer_indus/gui/main_dock_optimized.py:41-51 | the loop over a layer groups its edges by key |
| Network.FileLiaison | cheminer_indus/gui/main_dock_optimized.py:116-121 | one liaison is appended under its key, or skipped |
| Network.AddLiaisons | cheminer_indus/gui/main_dock_optimized.py:114-122 | the loop over the liaisons groups them by key |
| NodeOps.IndusOf | cheminer_indus/gui/main_dock_optimized.py:313-316 | a liaison names an industrial exactly when its `id_industriel` is non-empty and not INCONNU in any case |
| NodeOps.IndusIdsClean | cheminer_indus/gui/main_dock_optimized.py:290-335 | no removed industrial id is empty or INCONNU in any case |
| NodeOps.LiaisonIdsAdd | cheminer_indus/gui/main_dock_optimized.py:305-312 | one more node adds exactly its liaisons' fids |
| NodeOps.IndusIdsAdd | cheminer_indus/gui/main_dock_optimized.py:305-318 | one more node adds exactly its liaisons' industrial ids |
| NodeOps.TakeLiaison | cheminer_indus/gui/main_dock_optimized.py:311-318 | one liaison adds its fid and its industrial id, when it names one |
| NodeOps.TakeLiaisons | cheminer_indus/gui/main_dock_optimized.py:310-318 | the loop over a node's liaisons adds their fids and industrial ids |
| NodeOps.TakeNode | cheminer_indus/gui/main_dock_optimized.py:305-318 | one node adds its cached liaisons' fids and industrial ids; an unknown node adds nothing |
| NodeOps.CollectAtNodes | cheminer_indus/gui/main_dock_optimized.py:305-318 | the loop over the nodes collects exactly the liaison ids and industrial ids at them |
| NodeOps.PlanMember | cheminer_indus/gui/main_dock_optimized.py:356-375 | an id is in the plan exactly when some discarded branch contributes it |
| NodeOps.BulkPlanMembers | cheminer_indus/gui/main_dock_optimized.py:356-375 | the plan holds each discarded canal, ditch or liaison branch, the upstream of each discarded edge branch, and the industrial of each discarded liaison branch, and nothing else |
| NodeOps.BulkPlanAllChosen | cheminer_indus/gui/main_dock_optimized.py:357-358 | when every branch is kept the plan is empty |
| NodeOps.AddBranch | cheminer_indus/gui/main_dock_optimized.py:356-375 | a kept branch changes nothing; a discarded edge adds itself and its upstream walk; a discarded liaison adds its fid and its industrial |
| NodeOps.CachedWalkOn | cheminer_indus/gui/main_dock_optimized.py:128-288 | the cached walk's result, and only selected ids when the walk is restricted to the selection |
| NodeOps.OptimizedNodeOps.constructor | cheminer_indus/gui/main_dock_optimized.py:15-25 | the four layers as given and every cache empty |
| NodeOps.OptimizedNodeOps.InvalidateCaches | cheminer_indus/gui/main_dock_optimized.py:27-32 | every cache emptied, the layers unchanged |
| NodeOps.OptimizedNodeOps.BuildIncomingCache | cheminer_indus/gui/main_dock_optimized.py:34-69 | a built cache is returned as it is; otherwise the edges grouped by downstream end are stored and returned; the other caches are unchanged |
| NodeOps.OptimizedNodeOps.BuildOutgoingCache | cheminer_indus/gui/main_dock_optimized.py:71-105 | as the incoming cache, grouped by upstream end |
| NodeOps.OptimizedNodeOps.BuildLiaisonCache | cheminer_indus/gui/main_dock_optimized.py:107-126 | as the incoming cache, the liaisons grouped by node |
| NodeOps.OptimizedNodeOps.WalkUpstreamMixedOptimized | cheminer_indus/gui/main_dock_optimized.py:128-167 | nothing for an empty start; otherwise the upstream walk over the incoming cache from the start as given |
| NodeOps.OptimizedNodeOps.WalkDownstreamMixedOptimized | cheminer_indus/gui/main_dock_optimized.py:169-208 | nothing for an empty start; otherwise the downstream walk over the outgoing cache from the stripped start |
| NodeOps.OptimizedNodeOps.WalkUpstreamOnSelectedOptimized | cheminer_indus/gui/main_dock_optimized.py:210-248 | the upstream walk restricted to the selected ids, from the stripped start; only selected ids are returned |
| NodeOps.OptimizedNodeOps.WalkDownstreamOnSelectedOptimized | cheminer_indus/gui/main_dock_optimized.py:250-288 | the downstream walk restricted to the selected ids, from the stripped start; only selected ids are returned |
| NodeOps.OptimizedNodeOps.DeselectIndus | cheminer_indus/gui/main_dock_optimized.py:324-333 | the industrial features whose trimmed `id` is among the removed ids are deselected |
| NodeOps.OptimizedNodeOps.DeselectLiaisonsAndIndusFromNodesOptimized | cheminer_indus/gui/main_dock_optimized.py:290-335 | no nodes or no liaison layer changes nothing; otherwise the liaisons at the stripped nodes are deselected with their industrials, which are returned, and none is empty or INCONNU |
| NodeOps.OptimizedNodeOps.PlanBranches | cheminer_indus/gui/main_dock_optimized.py:356-375 | the branch loop computes the bulk plan over the incoming cache |
| NodeOps.OptimizedNodeOps.DeselectRemoval | cheminer_indus/gui/main_dock_optimized.py:377-418 | the plan's canals, ditches and liaisons, and the liaisons at its nodes, are deselected; its industrials are deselected and returned |
| NodeOps.OptimizedNodeOps.BulkDeselectUnselectedBranchesOptimized | cheminer_indus/gui/main_dock_optimized.py:337-418 | every layer loses exactly its part of the bulk plan of the discarded branches; the returned industrials are the plan's |
| MainDock.MapInversionLabel | cheminer_indus/gui/main_dock.py:312-326 | the fallback label exactly when the stripped code is not one of the four; the same label the diagnostics give for that `inversion` field |
| MainDock.IdNodesIff | cheminer_indus/gui/main_dock.py:748-766 | a node is collected exactly when it is a set, not INCONNU, end of a listed edge |
| MainDock.LayerNodesIff | cheminer_indus/gui/main_dock.py:754-763 | nothing without the layer or the ids; otherwise the usable ends of the listed features |
| MainDock.CollectedNodesIff | cheminer_indus/gui/main_dock.py:748-766 | the collected nodes are the usable ends of the listed canals and ditches, plus the stripped start when non-empty |
| MainDock.AddEndNodes | cheminer_indus/gui/main_dock.py:757-763 | the loop adds exactly the usable ends, whichever end comes first |
| MainDock.EdgeBranchesIff | cheminer_indus/gui/main_dock.py:819-828 | a canal or ditch branch is an edge whose trimmed `idnterm` is the node and whose trimmed `idnini` is set and not INCONNU, with its stored `idnini` |
| MainDock.LiaisonBranchesIff | cheminer_indus/gui/main_dock.py:829-832 | a liaison branch is a liaison whose trimmed `id_ouvrage` is the node, with its industrial id |
| MainDock.UpstreamBranchesIff | cheminer_indus/gui/main_dock.py:819-832 | the branches are exactly those incoming edges of both layers and all the node's liaisons |
| MainDock.BranchesAreIncomingEdges | cheminer_indus/gui/main_dock.py:819-832 | a canal feature is a branch exactly when the legacy query lists it as an incoming edge |
| MainDock.ScanEdgeBranches | cheminer_indus/gui/main_dock.py:821-828 | the loop over a layer lists exactly its branches |
| MainDock.ScanLiaisonBranches | cheminer_indus/gui/main_dock.py:829-832 | the loop over the liaisons lists exactly the liaison branches |
| MainDock.ChosenKeepSpec | cheminer_indus/gui/main_dock.py:838-866 | the branch dialog is cancellable only at a polluted node with two branches or more; a single polluted branch is kept; without pollution every branch is dropped; only branch fids are kept |
| MainDock.CachedWalkWithin | cheminer_indus/gui/main_dock.py:884-898 | a walk on the selection stays within the selection |
| MainDock.KeepPlanBounds | cheminer_indus/gui/main_dock.py:884-898 | KEEP holds every kept canal and ditch branch, and otherwise only selected edges |
| MainDock.PurgedOfIff | cheminer_indus/gui/main_dock.py:912-927 | the nodes of purged edges are the ends of some purged edge |
| MainDock.PurgedNodesIff | cheminer_indus/gui/main_dock.py:912-927 | the nodes collected are the ends of the edges with the given ids |
| MainDock.AddPurgedEnds | cheminer_indus/gui/main_dock.py:915-926 | the loop adds exactly those ends |
| MainDock.LegacyIndusClean | cheminer_indus/gui/main_dock.py:1107-1112 | the legacy rule never removes an empty or exactly-INCONNU industrial id |
| MainDock.CollectLegacyIndus | cheminer_indus/gui/main_dock.py:1107-1112 | the `getFeature` loop collects the legacy industrial ids of the given liaisons |
| MainDock.NodesFromIds | cheminer_indus/gui/main_dock.py:912-927 | `_nodes_from_ids` returns the ends of the edges with the given ids |
| MainDock.QueryWalkOn | cheminer_indus/gui/main_dock.py:959-1089 | the legacy walk loop computes the query walk; on the selection only selected ids |
| MainDock.IndusDroppedUnion | cheminer_indus/gui/main_dock.py:874-931 | deselecting the industrials of two id sets is deselecting those of their union |
| MainDock.LiaisonIdsUnion | cheminer_indus/gui/main_dock.py:874-931 | the liaisons and industrials at two node sets are those at their union |
| MainDock.PollutedPurgeSteps | cheminer_indus/gui/main_dock.py:874-931 | the downstream purge, KEEP and the purge of the rest compose into the polluted purge |
| MainDock.PrunedPolluted | cheminer_indus/gui/main_dock.py:856-931 | the branch step followed by the purge composes into the visit's outcome |
| MainDock.PrunedClean | cheminer_indus/gui/main_dock.py:856-868 | at a node without pollution the branch step is the visit's whole outcome |
| MainDock.PrunedSelection | cheminer_indus/gui/main_dock.py:856-931 | a visit only deselects and never keeps the discarded upstream; a polluted visit keeps nothing of the downstream walk or outside KEEP, and every kept branch that survived the downstream purge stays selected |
| MainDock.MainDock.constructor | cheminer_indus/gui/main_dock.py:71-114 | the four layers and the dock as given, no node operations, no visit |
| MainDock.MainDock.CollectNodesFromIds | cheminer_indus/gui/main_dock.py:748-766 | the nodes of the listed canals and ditches plus the stripped start |
| MainDock.MainDock.WalkUpstreamMixed | cheminer_indus/gui/main_dock.py:959-982 | nothing for an empty start; otherwise the upstream query walk from the start as given |
| MainDock.MainDock.WalkDownstreamMixed | cheminer_indus/gui/main_dock.py:998-1028 | nothing for an empty start; otherwise the downstream query walk from the stripped start |
| MainDock.MainDock.WalkDownstreamOnSelected | cheminer_indus/gui/main_dock.py:1037-1062 | the downstream query walk restricted to the selection; only selected ids |
| MainDock.MainDock.WalkUpstreamOnSelected | cheminer_indus/gui/main_dock.py:1064-1089 | the upstream query walk restricted to the selection; only selected ids |
| MainDock.MainDock.DeselectLiaisonsAndIndusFromNodes | cheminer_indus/gui/main_dock.py:1091-1121 | the liaisons queried at the nodes are deselected with their industrials, none empty or exactly INCONNU |
| MainDock.MainDock.DeselectLiaisonIds | cheminer_indus/gui/main_dock.py:1104-1114 | the liaisons are deselected and their legacy industrial ids collected |
| MainDock.MainDock.DeselectIndusLegacy | cheminer_indus/gui/main_dock.py:1114-1120 | the industrials with the removed ids are deselected |
| MainDock.MainDock.DeselectEdges | cheminer_indus/gui/main_dock.py:1156-1160 | these canal and ditch ids, and no others, are deselected |
| MainDock.MainDock.DeselectPlanLiaisons | cheminer_indus/gui/main_dock.py:1162-1186 | the plan's liaisons and those queried at its nodes are deselected |
| MainDock.MainDock.PlanLegacy | cheminer_indus/gui/main_dock.py:1135-1154 | the branch loop computes the bulk plan over the legacy queries |
| MainDock.MainDock.BulkDeselectUnselectedBranches | cheminer_indus/gui/main_dock.py:1123-1187 | every layer loses exactly its part of the legacy bulk plan; industrials deselected and returned |
| MainDock.MainDock.PrepareOps | cheminer_indus/gui/main_dock.py:793-805 | node operations ready, with every cache emptied, selections and dock unchanged |
| MainDock.MainDock.CollectBranches | cheminer_indus/gui/main_dock.py:819-832 | the branches are those at the node |
| MainDock.MainDock.DeselectUpstream | cheminer_indus/gui/main_dock.py:856-868 | the bulk plan of the discarded branches is deselected from every layer and its industrials returned |
| MainDock.MainDock.PurgeDownstream | cheminer_indus/gui/main_dock.py:874-882 | the downstream walk on the selection is deselected with the liaisons and industrials at its nodes |
| MainDock.MainDock.WalkDownstreamOn | cheminer_indus/gui/main_dock.py:876 | the cached downstream walk on the selection from the node |
| MainDock.MainDock.DeselectWalk | cheminer_indus/gui/main_dock.py:877-882 | a walk's ids are deselected with the liaisons and industrials at its nodes |
| MainDock.MainDock.BuildKeep | cheminer_indus/gui/main_dock.py:884-898 | KEEP is the kept branches plus their upstream on the selection; the selections are unchanged |
| MainDock.MainDock.DeselectAtNodes | cheminer_indus/gui/main_dock.py:930-931 | the liaisons at the given nodes are deselected with the industrials they name, which are returned; canals and ditches keep their selection |
| MainDock.MainDock.PurgeRest | cheminer_indus/gui/main_dock.py:900-931 | only KEEP stays selected among canals and ditches; the liaisons and industrials at the orphaned ends of purged edges are deselected |
| MainDock.MainDock.PurgeRestAndExclude | cheminer_indus/gui/main_dock.py:900-941 | the purge of the rest, then every removed industrial is excluded from the dock |
| MainDock.MainDock.PrunePolluted | cheminer_indus/gui/main_dock.py:856-941 | the selections after a polluted visit satisfy `Pruned`, and the removed industrials leave the dock |
| MainDock.MainDock.PruneClean | cheminer_indus/gui/main_dock.py:856-868 | the selections after a visit without pollution satisfy `Pruned` |
| MainDock.MainDock.PruneDirty | cheminer_indus/gui/main_dock.py:856-941 | as PrunePolluted, from the current state |
| MainDock.MainDock.Prune | cheminer_indus/gui/main_dock.py:856-941 | either way the selections satisfy `Pruned` and the removed industrials leave the dock |
| MainDock.MainDock.ExcludeFromDock | cheminer_indus/gui/main_dock.py:933-941 | the dock loses exactly the removed ids |
| MainDock.MainDock.VisitBranches | cheminer_indus/gui/main_dock.py:819-941 | a cancelled branch dialog changes nothing; otherwise the visit prunes as `Pruned` states |
| MainDock.MainDock.LogVisit | cheminer_indus/gui/main_dock.py:816 | the node and its answer are appended to the visit log, nothing else changes |
| MainDock.MainDock.VisitNode | cheminer_indus/gui/main_dock.py:816-941 | the visit is logged, then branches and pruning as in VisitBranches |
| MainDock.MainDock.Visit | cheminer_indus/gui/main_dock.py:786-944 | an empty input or a cancelled question changes no selection; otherwise the node is logged and, unless the branch dialog is cancelled, the selections are pruned |
| Industrials.LiaisonsAt | cheminer_indus/core/industrials.py:33-41 | the liaisons whose `id_ouvrage` is one of the values; none for no values |
| Industrials.Fids | cheminer_indus/core/industrials.py:41 | the fids of the features, in order |
| Industrials.IndustrialFids | cheminer_indus/core/industrials.py:65-69 | the industrial features whose `id` is one of the ids |
| Industrials.RowOf | cheminer_indus/core/industrials.py:99-101 | one entry per field, NULL read as "" |
| Industrials.SetDefault | cheminer_indus/core/industrials.py:104-112 | `setdefault`: the key added, existing entries kept, the default only when the key was absent |
| Industrials.GetOrKept | cheminer_indus/core/industrials.py:104-112 | a `setdefault` never changes what another lookup finds |
| Industrials.NormalizeShape | cheminer_indus/core/industrials.py:103-112 | the fields, plus `Nom`, `Adresse`, `Activite`, `Risques`, `Produits`, `siret` and `id`, each filled from its lower-case spelling when absent |
| Industrials.NormalizeSiret | cheminer_indus/core/industrials.py:109 | an absent `siret` is taken from `SIRET` |
| Industrials.FetchRowShape | cheminer_indus/core/industrials.py:86-116 | a found industrial gives its normalized row with its id; none gives an empty row |
| Industrials.IndustrialsService.constructor | cheminer_indus/core/industrials.py:15-18 | the two layers as given |
| Industrials.IndustrialsService.SelectLiaisonsFromNodes | cheminer_indus/core/industrials.py:23-47 | no layer or no non-empty node gives nothing; otherwise exactly the matching liaisons become the selection and their ids are returned |
| Industrials.IndustrialsService.SelectIndustrialsFromSelectedLiaisons | cheminer_indus/core/industrials.py:49-73 | without both layers nothing changes; otherwise the industrials named by the selected liaisons become the selection and their sorted ids, never empty or INCONNU, are returned |
| Industrials.IndustrialsService.ConnectedIdsFromNodes | cheminer_indus/core/industrials.py:75-81 | the sorted industrial ids of the liaisons at the non-empty nodes; whenever the liaison layer exists those liaisons become its selection, even without an industrial layer; with both layers the industrials they name become the industrial selection; without a liaison layer the industrial selection is unchanged |
| Industrials.IndustrialsService.SelectedAreMatches | cheminer_indus/core/industrials.py:75-81 | the industrials selected through the liaisons are those of the matching liaisons |
| Industrials.IndustrialsService.Fetch | cheminer_indus/core/industrials.py:86-116 | the normalized row of the first industrial with the id, or empty; a non-empty row carries the id |
| Industrials.IndustrialsService.ReadRow | cheminer_indus/core/industrials.py:98-101 | the field loop builds the row |
| Industrials.IndustrialsService.FetchMany | cheminer_indus/core/industrials.py:118-125 | one fetched row per requested id |
| Diagnostics.InversionLabelIff | cheminer_indus/core/diagnostics.py:35-40 | the fallback status exactly for an unmapped code; distinct codes give distinct labels |
| Diagnostics.StatusIff | cheminer_indus/core/diagnostics.py:76-84 | the status is a mapped label exactly when the field exists and its stripped code is mapped |
| Diagnostics.DirectionIff | cheminer_indus/core/diagnostics.py:66-72 | a direction exactly for two different network codes 01/02: EU → EP for 02 into 01, EP → EU for 01 into 02 |
| Diagnostics.EndpointIff | cheminer_indus/core/diagnostics.py:52-90 | an end gives a finding exactly when it is set, not INCONNU, a structure has that id, and the network types are inverted |
| Diagnostics.ToIntShow | cheminer_indus/core/diagnostics.py:95-99 | `_to_int` reads back any integer's text |
| Diagnostics.ToIntNoDigit | cheminer_indus/core/diagnostics.py:95-99 | NULL and text without a digit read as the default -1 |
| Diagnostics.ThresholdIff | cheminer_indus/core/diagnostics.py:105-106 | the threshold is 50 exactly for network 02, and 200 otherwise |
| Diagnostics.DiamsIntoMember | cheminer_indus/core/diagnostics.py:111-119 | the incoming diameters are the positive diameters of canals ending at the node |
| Diagnostics.DiamsIntoCounted | cheminer_indus/core/diagnostics.py:111-121 | a diameter recorded means at least one incoming canal was counted |
| Diagnostics.Max | cheminer_indus/core/diagnostics.py:126 | the maximum is a member and bounds every member |
| Diagnostics.ReductionIff | cheminer_indus/core/diagnostics.py:101-133 | a reduction exactly when the diameter is positive, the upstream end is set and not INCONNU, one canal leaves it, canals enter it, and their largest diameter exceeds this one by more than the threshold |
| Diagnostics.Listed | cheminer_indus/core/diagnostics.py:133 | an optional finding as a list: empty exactly when absent |
| Diagnostics.EndpointRefs | cheminer_indus/core/diagnostics.py:90 | an inversion finding names the canal and a structure |
| Diagnostics.InversionRefs | cheminer_indus/core/diagnostics.py:52-90 | the findings of both ends name the canal and a structure |
| Diagnostics.ReductionRefs | cheminer_indus/core/diagnostics.py:133 | a reduction names the canal twice |
| Diagnostics.RunOverStep | cheminer_indus/core/diagnostics.py:44-133 | one more canal appends its inversions and its reduction |
| Diagnostics.RunOverMembers | cheminer_indus/core/diagnostics.py:44-133 | every finding is one of some selected canal's |
| Diagnostics.RunSpecSelected | cheminer_indus/core/diagnostics.py:22-135 | no layer or no selection gives an empty report; every finding names a selected canal |
| Diagnostics.Diagnostics.constructor | cheminer_indus/core/diagnostics.py:18-20 | the two layers as given |
| Diagnostics.Diagnostics.CheckInversions | cheminer_indus/core/diagnostics.py:52-90 | the loop over both ends gives the canal's inversions |
| Diagnostics.Diagnostics.CheckEndpoint | cheminer_indus/core/diagnostics.py:53-90 | one end's finding |
| Diagnostics.Diagnostics.ScanIncoming | cheminer_indus/core/diagnostics.py:111-119 | the loop collects the incoming diameters and counts the incoming canals |
| Diagnostics.Diagnostics.CountOutgoing | cheminer_indus/core/diagnostics.py:122-123 | the number of canals leaving the node |
| Diagnostics.Diagnostics.CheckReduction | cheminer_indus/core/diagnostics.py:101-133 | the canal's reduction, if any |
| Diagnostics.Diagnostics.CheckConduit | cheminer_indus/core/diagnostics.py:45-133 | the canal's inversions, then its reduction |
| Diagnostics.Diagnostics.CheckAll | cheminer_indus/core/diagnostics.py:44-133 | the loop over the selected canals builds the report |
| Diagnostics.Diagnostics.RunSelectedOnly | cheminer_indus/core/diagnostics.py:22-135 | the report of the selected canals |
| PvAnalyzer.IdsOfIndex | cheminer_indus/core/pv_analyzer.py:105 | the ids of the list, in order |
| PvAnalyzer.FoundProps | cheminer_indus/core/pv_analyzer.py:78-127 | the found reports have distinct ids; each comes from a non-conforming hit; every non-conforming hit's id is found |
| PvAnalyzer.FoundFirst | cheminer_indus/core/pv_analyzer.py:102-127 | a non-conforming hit whose id is new is recorded with its own data |
| PvAnalyzer.FoundNoneBefore | cheminer_indus/core/pv_analyzer.py:92-127 | an id with no non-conforming hit is never found |
| PvAnalyzer.KeepActiveMembers | cheminer_indus/core/pv_analyzer.py:155-158 | the active reports are exactly those whose canal is not excluded |
| PvAnalyzer.KeepActiveAppend | cheminer_indus/core/pv_analyzer.py:155-158 | the filter distributes over concatenation |
| PvAnalyzer.KeepActiveNone | cheminer_indus/core/pv_analyzer.py:148-150 | excluding nothing keeps every report |
| PvAnalyzer.KeepActiveTwice | cheminer_indus/core/pv_analyzer.py:155-158 | two exclusions compose into one; repeating one changes nothing |
| PvAnalyzer.FirstById | cheminer_indus/core/pv_analyzer.py:250 | a report with the id from the list, or None exactly when no report has it |
| PvAnalyzer.ProblemesSpec | cheminer_indus/core/pv_analyzer.py:202-208 | each inversion flag "Oui" gives its problem, in order; neither gives the general one |
| PvAnalyzer.ProblemesJoin | cheminer_indus/core/pv_analyzer.py:228 | both inversions join into one comma-separated text |
| PvAnalyzer.PVAnalyzer.constructor | cheminer_indus/core/pv_analyzer.py:28-44 | the layer as given, empty lists, no polluter |
| PvAnalyzer.PVAnalyzer.SetPvLayer | cheminer_indus/core/pv_analyzer.py:46-56 | the new layer, with the lists and the polluter cleared |
| PvAnalyzer.PVAnalyzer.FindPvNearPath | cheminer_indus/core/pv_analyzer.py:58-136 | no layer changes nothing and gives nothing; otherwise both lists and the result are the found reports |
| PvAnalyzer.PVAnalyzer.AnyWithId | cheminer_indus/core/pv_analyzer.py:105 | true exactly when a listed report has the id |
| PvAnalyzer.PVAnalyzer.UpdateAfterExclusion | cheminer_indus/core/pv_analyzer.py:138-166 | the active list is the found list without the excluded canals, and is returned |
| PvAnalyzer.PVAnalyzer.GetPvById | cheminer_indus/core/pv_analyzer.py:240-250 | an active report with the id, or None exactly when none has it |
| PvAnalyzer.PVAnalyzer.DesignateAsPolluter | cheminer_indus/core/pv_analyzer.py:168-189 | succeeds exactly when an active report has the id, and then it becomes the polluter; otherwise the polluter is unchanged |
| PvAnalyzer.PVAnalyzer.GetPolluterInfo | cheminer_indus/core/pv_analyzer.py:191-229 | None exactly without a polluter; otherwise its summary with its problems and their joined text |
| PvAnalyzer.PVAnalyzer.Clear | cheminer_indus/core/pv_analyzer.py:252-258 | both lists empty, no polluter, the layer kept |
| PvAnalyzer.ActiveWithinFound | cheminer_indus/core/pv_analyzer.py:231-238 | the active reports are among the found ones; the export's counts and list agree with the state |
| IndustrialTable.KeepIn | cheminer_indus/gui/industrial_dock.py:338-344 | the elements of the list that are in the set, in order and without repeats |
| IndustrialTable.KeepOut | cheminer_indus/gui/industrial_dock.py:338-344 | the elements of the list that are not in the set, in order and without repeats |
| IndustrialTable.FieldOrder | cheminer_indus/gui/industrial_dock.py:308-317 | every field once: the preferred fields present, in their order, then the others sorted |
| IndustrialTable.Tokens | cheminer_indus/gui/industrial_dock.py:478 | the search tokens are never empty |
| IndustrialTable.TokensEmpty | cheminer_indus/gui/industrial_dock.py:478 | there is no token exactly when every piece strips to empty |
| IndustrialTable.SplitBlank | cheminer_indus/gui/industrial_dock.py:478 | every comma-separated piece is blank exactly when the text holds only whitespace and commas |
| IndustrialTable.NoTokensIff | cheminer_indus/gui/industrial_dock.py:471-482 | a search text has no token exactly when it holds only whitespace and commas |
| IndustrialTable.FilterView | cheminer_indus/gui/industrial_dock.py:467-510 | the visible rows are rows of the data, unchanged |
| IndustrialTable.AnyFieldIff | cheminer_indus/gui/industrial_dock.py:497-502 | a token matches a row exactly when it is contained in the lower-cased value of one of the fields |
| IndustrialTable.RowMatchIff | cheminer_indus/gui/industrial_dock.py:490-503 | a row matches exactly when some token occurs, case-insensitively, in some searched field (the OR match) |
| IndustrialTable.Filtered | cheminer_indus/gui/industrial_dock.py:505-509 | with tokens, the rows that match; rows are kept unchanged |
| IndustrialTable.FilterViewBlank | cheminer_indus/gui/industrial_dock.py:478-482 | a blank search shows every row |
| IndustrialTable.FilterViewIff | cheminer_indus/gui/industrial_dock.py:467-510 | a row is visible exactly when it is in the data and the search is blank or some token occurs, case-insensitively, in some searched field: the filter fields, or all fields when none is chosen |
| IndustrialTable.Without | cheminer_indus/gui/industrial_dock.py:542-549 | the rows whose id is not excluded, unchanged |
| IndustrialTable.RemoveRows | cheminer_indus/gui/industrial_dock.py:424-426 | the items not at a removed row, without adding repeats |
| IndustrialTable.AppendMissing | cheminer_indus/gui/industrial_dock.py:420-422 | the destination followed by the moved texts it lacked, without adding repeats |
| IndustrialTable.Picked | cheminer_indus/gui/industrial_dock.py:418 | the texts at the selected rows, in order |
| IndustrialTable.IndustrialDock.constructor | cheminer_indus/gui/industrial_dock.py:72-99 | no data, no fields, empty search |
| IndustrialTable.IndustrialDock.DefaultLists | cheminer_indus/gui/industrial_dock.py:338-344 | the fields in the default filter set, and the others |
| IndustrialTable.IndustrialDock.KeepSnoc | cheminer_indus/gui/industrial_dock.py:338-344 | the loop step of the default lists |
| IndustrialTable.IndustrialDock.SetData | cheminer_indus/gui/industrial_dock.py:301-347 | the data shown in full; the columns ordered as in FieldOrder; the filter list is the default filter fields and the available list the other fields, each in the column order |
| IndustrialTable.IndustrialDock.ApplyFilter | cheminer_indus/gui/industrial_dock.py:467-511 | no data keeps the view; otherwise the view is FilterView of the data; nothing else changes |
| IndustrialTable.IndustrialDock.ExcludeIds | cheminer_indus/gui/industrial_dock.py:533-550 | an empty list changes nothing; otherwise the ids leave both the data and the view |
| IndustrialTable.IndustrialDock.ResetFilter | cheminer_indus/gui/industrial_dock.py:513-528 | empty search, full view, and the default split of the fields |
| IndustrialTable.IndustrialDock.MoveSelectedToFilter | cheminer_indus/gui/industrial_dock.py:414-426 | the selected available fields move to the end of the filter list, once each; the two lists still split the fields |
| IndustrialTable.IndustrialDock.MoveSelectedToAvailable | cheminer_indus/gui/industrial_dock.py:428-440 | the selected filter fields move to the end of the available list, once each; the two lists still split the fields |
| IndustrialTable.IndustrialDock.MoveKeepsPartition | cheminer_indus/gui/industrial_dock.py:414-440 | a move keeps both lists free of repeats and their union unchanged |

## Left out

- Qt and QGIS user interface: widgets, signals, message boxes, wait cursors, canvas refresh, zooming and error dialogs are outside the model. The two visit dialogs become parameters: the pollution answer (yes, no or cancel) and the ticked branch fids, or none for a cancelled dialog.
- Console output (`print`) and the autosave timer have no effect on the modelled state and are left out.
- Geometry: a feature's geometry length is an abstract natural number. The buffer search of `find_pv_near_path` is a parameter, the hits in search order. PV distances, point geometries and feature objects are not kept in the report records.
- Floating point: `total_length` is a `real`, and `float(v)` on the `len` field reads decimal text only (no exponent, no `inf`/`nan`, no underscores such as `1_0.5`).
- Strings: `strip`, `trim`, `upper` and `lower` act on ASCII only. On ASCII, Python's `str.strip()` (`Strip`) also removes the separators 0x1C-0x1F, and QGIS `trim()` (`Trim`) does not; both are modelled. Unicode whitespace (such as U+0085 and U+00A0, which both remove) and Unicode case mapping are not modelled.
- SQL expressions: the quoting and escaping of `'` in `IN (...)` and `=` filters are left out; a query is modelled by the comparison it performs.
- Invalid layers (`isValid()` false) are folded into absent layers.
- A field missing from a feature reads as NULL where the source, outside any `try`, would raise.
- Diagnostics.ToInt: parses `int(str(v).strip())` for decimal text with an optional sign, not Python's underscores or non-ASCII digits.
- MainDock.MainDock.ExcludeFromDock: the caller's `try/except` around `exclude_ids` (main_dock.py:938-941) is not modelled; `exclude_ids` only filters two maps and refreshes the table, so the failures it swallows are UI only.
- `_safe_json` (session JSON serialisation of Qt date types) and `_select_liaisons_from_nodes` in `main_dock.py` are not part of this model; the liaison selection modelled is `IndustrialsService.select_liaisons_from_nodes`.
- The double-click field moves and the drag-and-drop move between the two field lists (`_FieldList.dropEvent`, the same no-duplicate move as MoveSelectedToFilter/MoveSelectedToAvailable), `_refresh_table` and `_export_csv` of the industrial dock are not modelled: they are Qt events, table painting and file output.
- NodeOps.OptimizedNodeOps: `_indus_feat_cache` is only ever cleared and never built in the source, so it is a field that stays empty.
- PvAnalyzer.PVAnalyzer.GetPvCount and PvAnalyzer.PVAnalyzer.ExportToDict carry no contract of their own; their properties are stated by PvAnalyzer.ActiveWithinFound.
- Concurrency and aliasing between layer objects are not modelled: the four layers are distinct objects.
