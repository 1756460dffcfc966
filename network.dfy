/**
 * The network as the walks see it: canal and ditch edges joined through
 * their `idnini` / `idnterm` node ids. Two adjacency sources exist: the
 * cached maps of the optimised node operations (edges grouped by trimmed
 * node id, canal edges first) and the per-node feature queries of the dock.
 * Both are "the edges of a collection whose key is the probed node", so one
 * uniqueness lemma serves both.
 */
module Network {
  import opened Common
  import opened Layers
  import opened Graph
  import opened Walks

  type EdgeMap = map<string, seq<TaggedEdge>>

  /** A layer's features as adjacency entries of one collection. */
  function Tag(k: Kind, fs: seq<Feature>): (r: seq<TaggedEdge>)
    ensures |r| == |fs| && forall i :: 0 <= i < |fs| ==> r[i] == TaggedEdge(k, fs[i])
  {
    seq(|fs|, i requires 0 <= i < |fs| => TaggedEdge(k, fs[i]))
  }

  lemma TagSnoc(k: Kind, fs: seq<Feature>, i: nat)
    requires i < |fs|
    ensures Tag(k, fs[..i + 1]) == Tag(k, fs[..i]) + [TaggedEdge(k, fs[i])]
  {
  }

  /** No two entries of the list stand for the same edge. */
  predicate DistinctTags(s: seq<TaggedEdge>) {
    forall i, j :: 0 <= i < j < |s| ==> !SameTag(s[i], s[j])
  }

  // ------------------------------------------------------------------
  // Grouping by key: the `cache.setdefault(key, []).append(x)` loops
  // ------------------------------------------------------------------

  /** c extended with every item under its key, in order; items without a key are dropped. */
  function GroupBy<T>(c: map<string, seq<T>>, items: seq<T>, key: T -> Option<string>): map<string, seq<T>>
    decreases |items|
  {
    if items == [] then c
    else
      var g := GroupBy(c, items[..|items| - 1], key);
      var x := items[|items| - 1];
      match key(x)
      case None => g
      case Some(k) => g[k := Lookup(g, k) + [x]]
  }

  /** The items whose key is n, in order. */
  function KeyedAt<T(!new)>(items: seq<T>, key: T -> Option<string>, n: string): (r: seq<T>)
    ensures forall x :: x in r <==> x in items && key(x) == Some(n)
    ensures |r| <= |items|
    decreases |items|
  {
    if items == [] then []
    else
      var x := items[|items| - 1];
      var rest := KeyedAt(items[..|items| - 1], key, n);
      assert forall y :: y in items <==> y in items[..|items| - 1] || y == x;
      if key(x) == Some(n) then rest + [x] else rest
  }

  /** After grouping, the list at n is the old list followed by the items keyed n. */
  lemma {:induction false} GroupByLookup<T(!new)>(c: map<string, seq<T>>, items: seq<T>, key: T -> Option<string>, n: string)
    ensures Lookup(GroupBy(c, items, key), n) == Lookup(c, n) + KeyedAt(items, key, n)
    decreases |items|
  {
    if items != [] {
      GroupByLookup(c, items[..|items| - 1], key, n);
    }
  }

  lemma GroupBySnoc<T>(c: map<string, seq<T>>, items: seq<T>, x: T, key: T -> Option<string>)
    ensures GroupBy(c, items + [x], key) ==
      match key(x) case None => GroupBy(c, items, key) case Some(k) => GroupBy(c, items, key)[k := Lookup(GroupBy(c, items, key), k) + [x]]
  {
    assert (items + [x])[..|items|] == items;
  }

  /** Grouping adds a key only for an item that carries it. */
  lemma {:induction false} GroupByKeys<T(!new)>(c: map<string, seq<T>>, items: seq<T>, key: T -> Option<string>, n: string)
    ensures n in GroupBy(c, items, key) <==> n in c || KeyedAt(items, key, n) != []
    decreases |items|
  {
    if items != [] {
      GroupByKeys(c, items[..|items| - 1], key, n);
    }
  }

  lemma {:induction false} KeyedAtDistinct(items: seq<TaggedEdge>, key: TaggedEdge -> Option<string>, n: string)
    requires DistinctTags(items)
    ensures DistinctTags(KeyedAt(items, key, n))
    decreases |items|
  {
    if items != [] {
      var init := items[..|items| - 1];
      var x := items[|items| - 1];
      assert DistinctTags(init);
      KeyedAtDistinct(init, key, n);
      var rest := KeyedAt(init, key, n);
      forall y | y in rest ensures !SameTag(y, x) {
        var i :| 0 <= i < |init| && init[i] == y;
        assert items[i] == y;
      }
    }
  }

  lemma TagDistinct(k: Kind, fs: seq<Feature>)
    requires UniqueFids(fs)
    ensures DistinctTags(Tag(k, fs))
  {
  }

  // ------------------------------------------------------------------
  // The adjacency caches (`build_incoming_cache`, `build_outgoing_cache`)
  // ------------------------------------------------------------------

  /**
   * The key of an edge in the incoming (Up) or outgoing (Down) cache: the
   * trimmed `idnterm` or `idnini`. An edge lacking either field, with an
   * endpoint exactly `INCONNU` after trimming, or with an empty key is left out.
   */
  function EdgeKey(f: Feature, d: Dir): (r: Option<string>)
    ensures r.Some? ==> r.value != "" && r.value == Trimmed(f, if d == Up then "idnterm" else "idnini")
    ensures r.Some? ==> Trimmed(f, "idnini") != INCONNU && Trimmed(f, "idnterm") != INCONNU
  {
    if "idnini" in f.attrs && "idnterm" in f.attrs then
      var ini := Trimmed(f, "idnini");
      var term := Trimmed(f, "idnterm");
      var key := if d == Up then term else ini;
      if ini != INCONNU && term != INCONNU && key != "" then Some(key) else None
    else None
  }

  function EdgeKeyRule(d: Dir): TaggedEdge -> Option<string> {
    (e: TaggedEdge) => EdgeKey(e.feat, d)
  }

  /** The cache a build produces: canal edges, then ditch edges, grouped by key. */
  function EdgeCache(canal: Option<LayerData>, fosse: Option<LayerData>, d: Dir): EdgeMap {
    GroupBy(GroupBy(map[], Tag(Canal, Features(canal)), EdgeKeyRule(d)), Tag(Fosse, Features(fosse)), EdgeKeyRule(d))
  }

  function AdjOf(cache: EdgeMap): Adjacency {
    n => Lookup(cache, n)
  }

  /** `cache.get(n, [])`: the canal edges keyed n, then the ditch edges keyed n. */
  lemma EdgeCacheLookup(canal: Option<LayerData>, fosse: Option<LayerData>, d: Dir, n: string)
    ensures Lookup(EdgeCache(canal, fosse, d), n) ==
      KeyedAt(Tag(Canal, Features(canal)), EdgeKeyRule(d), n) + KeyedAt(Tag(Fosse, Features(fosse)), EdgeKeyRule(d), n)
  {
    var cs, fs, key := Tag(Canal, Features(canal)), Tag(Fosse, Features(fosse)), EdgeKeyRule(d);
    var empty: EdgeMap := map[];
    var c1 := GroupBy(empty, cs, key);
    GroupByLookup(empty, cs, key, n);
    assert Lookup(empty, n) == [];
    assert Lookup(c1, n) == KeyedAt(cs, key, n);
    GroupByLookup(c1, fs, key, n);
    assert EdgeCache(canal, fosse, d) == GroupBy(c1, fs, key);
  }

  lemma TagMember(k: Kind, fs: seq<Feature>, e: TaggedEdge)
    ensures e in Tag(k, fs) <==> e.kind == k && e.feat in fs
  {
    if e.kind == k && e.feat in fs {
      var i :| 0 <= i < |fs| && fs[i] == e.feat;
      assert Tag(k, fs)[i] == e;
    }
  }

  /** The entries of the cache at n are exactly the edges of the two layers whose key is n. */
  lemma EdgeCacheEntries(canal: Option<LayerData>, fosse: Option<LayerData>, d: Dir, n: string, e: TaggedEdge)
    ensures e in Lookup(EdgeCache(canal, fosse, d), n) <==>
      ((e.kind == Canal && e.feat in Features(canal)) || (e.kind == Fosse && e.feat in Features(fosse))) &&
      EdgeKey(e.feat, d) == Some(n)
  {
    EdgeCacheLookup(canal, fosse, d, n);
    TagMember(Canal, Features(canal), e);
    TagMember(Fosse, Features(fosse), e);
  }

  /** In the cache every canal edge of a node comes before every ditch edge. */
  lemma EdgeCacheOrder(canal: Option<LayerData>, fosse: Option<LayerData>, d: Dir, n: string)
    ensures var l := Lookup(EdgeCache(canal, fosse, d), n);
      forall i, j :: 0 <= i < j < |l| && l[j].kind == Canal ==> l[i].kind == Canal
  {
    EdgeCacheLookup(canal, fosse, d, n);
    var a := KeyedAt(Tag(Canal, Features(canal)), EdgeKeyRule(d), n);
    var b := KeyedAt(Tag(Fosse, Features(fosse)), EdgeKeyRule(d), n);
    assert forall x :: x in a ==> x.kind == Canal;
    assert forall x :: x in b ==> x.kind == Fosse;
    CanalsFirst(a, b);
  }

  /** Canal edges followed by ditch edges put every canal edge before every ditch edge. */
  lemma CanalsFirst(a: seq<TaggedEdge>, b: seq<TaggedEdge>)
    requires forall x :: x in a ==> x.kind == Canal
    requires forall x :: x in b ==> x.kind == Fosse
    ensures var l := a + b;
      forall i, j :: 0 <= i < j < |l| && l[j].kind == Canal ==> l[i].kind == Canal
  {
    var l := a + b;
    assert forall i :: |a| <= i < |l| ==> l[i] in b;
    assert forall i :: 0 <= i < |a| ==> l[i] in a;
  }

  /** `build_liaison_cache`'s key: the trimmed `id_ouvrage`, unless empty or INCONNU in any case. */
  function LiaisonKey(f: Feature): (r: Option<string>)
    ensures r.Some? <==> "id_ouvrage" in f.attrs && Trimmed(f, "id_ouvrage") != "" && !IsUnknownCI(Trimmed(f, "id_ouvrage"))
    ensures r.Some? ==> r.value == Trimmed(f, "id_ouvrage")
  {
    if "id_ouvrage" in f.attrs then
      var k := Trimmed(f, "id_ouvrage");
      if k != "" && !IsUnknownCI(k) then Some(k) else None
    else None
  }

  /** The liaisons of the layer grouped by structure id. */
  function LiaisonCache(liaison: Option<LayerData>): map<string, seq<Feature>> {
    GroupBy(map[], Features(liaison), LiaisonKey)
  }

  lemma LiaisonCacheEntries(liaison: Option<LayerData>, n: string)
    ensures forall lf :: lf in Lookup(LiaisonCache(liaison), n) <==> lf in Features(liaison) && LiaisonKey(lf) == Some(n)
    ensures n in LiaisonCache(liaison) ==> n != "" && !IsUnknownCI(n)
  {
    GroupByLookup(map[], Features(liaison), LiaisonKey, n);
    GroupByKeys(map[], Features(liaison), LiaisonKey, n);
    if n in LiaisonCache(liaison) {
      var lf := KeyedAt(Features(liaison), LiaisonKey, n)[0];
      assert lf in KeyedAt(Features(liaison), LiaisonKey, n);
      assert LiaisonKey(lf) == Some(n);
    }
  }

  // ------------------------------------------------------------------
  // The per-node queries of the dock
  // ------------------------------------------------------------------

  /**
   * `_iter_incoming_edges_mixed(n)` selects `trim("idnterm") = n AND
   * trim("idnini") != 'INCONNU'` (NULL fails both tests), so its key is the
   * trimmed `idnterm` probed with n as given. `_iter_outgoing_edges_mixed(n)`
   * selects `trim("idnini") = strip(n)`, so its key is the trimmed `idnini`
   * probed with the stripped node.
   */
  function QueryKey(f: Feature, d: Dir): Option<string> {
    if d == Up then
      if Attr(f, "idnterm").Some? && Attr(f, "idnini").Some? && Trim(Attr(f, "idnini").value) != INCONNU
      then Some(Trim(Attr(f, "idnterm").value)) else None
    else if Attr(f, "idnini").Some? then Some(Trim(Attr(f, "idnini").value)) else None
  }

  function QueryKeyRule(d: Dir): TaggedEdge -> Option<string> {
    (e: TaggedEdge) => QueryKey(e.feat, d)
  }

  function Probe(d: Dir, n: string): string { if d == Up then n else Strip(n) }

  /** The edges the dock's query returns at n: canal features, then ditch features. */
  function QueryEdges(canal: Option<LayerData>, fosse: Option<LayerData>, d: Dir, n: string): seq<TaggedEdge> {
    KeyedAt(Tag(Canal, Features(canal)), QueryKeyRule(d), Probe(d, n)) +
    KeyedAt(Tag(Fosse, Features(fosse)), QueryKeyRule(d), Probe(d, n))
  }

  function QueryAdj(canal: Option<LayerData>, fosse: Option<LayerData>, d: Dir): Adjacency {
    n => QueryEdges(canal, fosse, d, n)
  }

  lemma QueryEdgesIff(canal: Option<LayerData>, fosse: Option<LayerData>, n: string, e: TaggedEdge)
    requires e.kind == Canal && e.feat in Features(canal)
    ensures e in QueryEdges(canal, fosse, Up, n) <==>
      TrimEquals(e.feat, "idnterm", n) && Attr(e.feat, "idnini").Some? && Trim(Attr(e.feat, "idnini").value) != INCONNU
    ensures e in QueryEdges(canal, fosse, Down, n) <==> TrimEquals(e.feat, "idnini", Strip(n))
  {
    var i :| 0 <= i < |Features(canal)| && Features(canal)[i] == e.feat;
    assert Tag(Canal, Features(canal))[i] == e;
  }

  // ------------------------------------------------------------------
  // Uniqueness and bounds
  // ------------------------------------------------------------------

  /**
   * An adjacency that lists, at each node, the canal then ditch edges whose key
   * is the node's probe lists no edge twice on any set of nodes where the probe
   * is one-to-one.
   */
  lemma KeyedUnique(canal: Option<LayerData>, fosse: Option<LayerData>, key: TaggedEdge -> Option<string>,
                    probe: string -> string, adj: Adjacency, U: set<string>)
    requires forall n :: adj(n) == KeyedAt(Tag(Canal, Features(canal)), key, probe(n)) + KeyedAt(Tag(Fosse, Features(fosse)), key, probe(n))
    requires forall n1, n2 :: n1 in U && n2 in U && probe(n1) == probe(n2) ==> n1 == n2
    ensures UniqueTags(adj, U)
  {
    forall n | n in U ensures DistinctTags(adj(n)) {
      KeyedPairDistinct(canal, fosse, key, probe(n));
    }
    forall n1, n2, i1, i2 |
      n1 in U && n2 in U && 0 <= i1 < |adj(n1)| && 0 <= i2 < |adj(n2)| && SameTag(adj(n1)[i1], adj(n2)[i2])
      ensures n1 == n2 && i1 == i2
    {
      KeyedApart(canal, fosse, key, probe(n1), probe(n2), adj(n1)[i1], adj(n2)[i2]);
      assert DistinctTags(adj(n1));
    }
  }

  /** The edges of the two layers keyed by one node are listed once each. */
  lemma KeyedPairDistinct(canal: Option<LayerData>, fosse: Option<LayerData>, key: TaggedEdge -> Option<string>, p: string)
    ensures DistinctTags(KeyedAt(Tag(Canal, Features(canal)), key, p) + KeyedAt(Tag(Fosse, Features(fosse)), key, p))
  {
    var tc := Tag(Canal, Features(canal));
    var tf := Tag(Fosse, Features(fosse));
    TagDistinct(Canal, Features(canal));
    TagDistinct(Fosse, Features(fosse));
    KeyedAtDistinct(tc, key, p);
    KeyedAtDistinct(tf, key, p);
    var a := KeyedAt(tc, key, p);
    var b := KeyedAt(tf, key, p);
    forall i, j | 0 <= i < j < |a + b| ensures !SameTag((a + b)[i], (a + b)[j]) {
      if i < |a| && j >= |a| {
        assert (a + b)[i] in a && (a + b)[j] in b;
      } else if j < |a| {
        assert (a + b)[i] == a[i] && (a + b)[j] == a[j];
      } else {
        assert (a + b)[i] == b[i - |a|] && (a + b)[j] == b[j - |a|];
      }
    }
  }

  /** One edge keyed by two nodes: the keys agree. */
  lemma KeyedApart(canal: Option<LayerData>, fosse: Option<LayerData>, key: TaggedEdge -> Option<string>,
                   p1: string, p2: string, e1: TaggedEdge, e2: TaggedEdge)
    requires e1 in KeyedAt(Tag(Canal, Features(canal)), key, p1) + KeyedAt(Tag(Fosse, Features(fosse)), key, p1)
    requires e2 in KeyedAt(Tag(Canal, Features(canal)), key, p2) + KeyedAt(Tag(Fosse, Features(fosse)), key, p2)
    requires SameTag(e1, e2)
    ensures p1 == p2
  {
    TagMember(Canal, Features(canal), e1);
    TagMember(Fosse, Features(fosse), e1);
    TagMember(Canal, Features(canal), e2);
    TagMember(Fosse, Features(fosse), e2);
    if e1.kind == Canal {
      SameFidSameFeature(Features(canal), e1.feat, e2.feat);
    } else {
      SameFidSameFeature(Features(fosse), e1.feat, e2.feat);
    }
    assert e1 == e2;
  }

  lemma EdgeCacheUnique(canal: Option<LayerData>, fosse: Option<LayerData>, d: Dir, U: set<string>)
    ensures UniqueTags(AdjOf(EdgeCache(canal, fosse, d)), U)
  {
    forall n ensures AdjOf(EdgeCache(canal, fosse, d))(n) ==
      KeyedAt(Tag(Canal, Features(canal)), EdgeKeyRule(d), (s => s)(n)) + KeyedAt(Tag(Fosse, Features(fosse)), EdgeKeyRule(d), (s => s)(n))
    {
      EdgeCacheLookup(canal, fosse, d, n);
    }
    KeyedUnique(canal, fosse, EdgeKeyRule(d), s => s, AdjOf(EdgeCache(canal, fosse, d)), U);
  }

  /** On stripped nodes (every node but an upstream start is one), the dock's queries list no edge twice. */
  lemma QueryUnique(canal: Option<LayerData>, fosse: Option<LayerData>, d: Dir, U: set<string>)
    requires d == Down ==> forall n :: n in U ==> Strip(n) == n
    ensures UniqueTags(QueryAdj(canal, fosse, d), U)
  {
    KeyedUnique(canal, fosse, QueryKeyRule(d), n => Probe(d, n), QueryAdj(canal, fosse, d), U);
  }

  /** The nodes a walk over the cache can push, and the start. */
  function CacheUniverse(cache: EdgeMap, d: Dir, start: string): set<string> {
    {start} + set n, e | n in cache && e in cache[n] && NextOf(e, d).Some? :: NextOf(e, d).value
  }

  lemma CacheBounded(cache: EdgeMap, d: Dir, start: string)
    ensures start in CacheUniverse(cache, d, start)
    ensures Bounded(AdjOf(cache), PushRule(d), CacheUniverse(cache, d, start))
  {
    forall n, e | e in AdjOf(cache)(n) && PushRule(d)(e).Some?
      ensures PushRule(d)(e).value in CacheUniverse(cache, d, start)
    {
      assert n in cache && e in cache[n];
    }
  }

  /** The nodes a walk over the dock's queries can push, and the start. */
  function QueryUniverse(canal: Option<LayerData>, fosse: Option<LayerData>, d: Dir, start: string): set<string> {
    {start} + set e | e in Tag(Canal, Features(canal)) + Tag(Fosse, Features(fosse)) && NextOf(e, d).Some? :: NextOf(e, d).value
  }

  lemma QueryBounded(canal: Option<LayerData>, fosse: Option<LayerData>, d: Dir, start: string)
    ensures start in QueryUniverse(canal, fosse, d, start)
    ensures Bounded(QueryAdj(canal, fosse, d), PushRule(d), QueryUniverse(canal, fosse, d, start))
    ensures Strip(start) == start ==> forall n :: n in QueryUniverse(canal, fosse, d, start) ==> Strip(n) == n
  {
    forall n, e | e in QueryAdj(canal, fosse, d)(n) && PushRule(d)(e).Some?
      ensures PushRule(d)(e).value in QueryUniverse(canal, fosse, d, start)
    {
      assert e in Tag(Canal, Features(canal)) + Tag(Fosse, Features(fosse));
    }
    forall e | NextOf(e, d).Some? ensures Strip(NextOf(e, d).value) == NextOf(e, d).value {
      StripIdempotent(Text(e.feat, FarField(d)));
    }
  }

  // ------------------------------------------------------------------
  // What the walks return
  // ------------------------------------------------------------------

  /** A walk over a cache: the nodes reachable from start and the admitted edges met there. */
  ghost function CachedWalk(cache: EdgeMap, d: Dir, r: Restriction, start: string): WalkOut {
    CacheBounded(cache, d, start);
    WalkSpec(AdjOf(cache), PushRule(d), r, start, CacheUniverse(cache, d, start))
  }

  /** A walk over the dock's per-node queries. */
  ghost function QueryWalk(canal: Option<LayerData>, fosse: Option<LayerData>, d: Dir, r: Restriction, start: string): WalkOut {
    QueryBounded(canal, fosse, d, start);
    WalkSpec(QueryAdj(canal, fosse, d), PushRule(d), r, start, QueryUniverse(canal, fosse, d, start))
  }

  /** Well-known shapes of a walk: the start is seen and the ids of a restricted walk are selected ones. */
  lemma WalkWithinSelection(adj: Adjacency, next: NextFn, selC: set<int>, selF: set<int>, nodes: set<string>)
    ensures IdsAt(adj, OnSelection(selC, selF), Canal, nodes) <= selC
    ensures IdsAt(adj, OnSelection(selC, selF), Fosse, nodes) <= selF
  {
  }

  // ------------------------------------------------------------------
  // The build loops
  // ------------------------------------------------------------------

  /** The body of a cache build for one feature, inside its `try`. */
  method FileEdge(c0: EdgeMap, e: TaggedEdge, d: Dir) returns (c: EdgeMap)
    ensures c == match EdgeKey(e.feat, d) case None => c0 case Some(key) => c0[key := Lookup(c0, key) + [e]]
  {
    c := c0;
    var f := e.feat;
    // A missing field raises inside the `try`, and the feature is skipped.
    if "idnini" in f.attrs && "idnterm" in f.attrs {
      var idnini := Trimmed(f, "idnini");
      var idnterm := Trimmed(f, "idnterm");
      var key := if d == Up then idnterm else idnini;
      if idnini != INCONNU && idnterm != INCONNU && key != "" {
        if key !in c {
          c := c[key := []];
        }
        c := c[key := c[key] + [e]];
      }
    }
  }

  /** One `for f in layer.getFeatures()` loop of a cache build. */
  method AddEdges(c0: EdgeMap, k: Kind, fs: seq<Feature>, d: Dir) returns (c: EdgeMap)
    ensures c == GroupBy(c0, Tag(k, fs), EdgeKeyRule(d))
  {
    c := c0;
    var i := 0;
    while i < |fs|
      invariant 0 <= i <= |fs|
      invariant c == GroupBy(c0, Tag(k, fs[..i]), EdgeKeyRule(d))
    {
      var e := TaggedEdge(k, fs[i]);
      TagSnoc(k, fs, i);
      GroupBySnoc(c0, Tag(k, fs[..i]), e, EdgeKeyRule(d));
      c := FileEdge(c, e, d);
      i := i + 1;
    }
    assert fs[..i] == fs;
  }

  /** The body of `build_liaison_cache` for one feature, inside its `try`. */
  method FileLiaison(c0: map<string, seq<Feature>>, f: Feature) returns (c: map<string, seq<Feature>>)
    ensures c == match LiaisonKey(f) case None => c0 case Some(key) => c0[key := Lookup(c0, key) + [f]]
  {
    c := c0;
    if "id_ouvrage" in f.attrs {
      var idOuvr := Trimmed(f, "id_ouvrage");
      if idOuvr != "" && Upper(idOuvr) != INCONNU {
        if idOuvr !in c {
          c := c[idOuvr := []];
        }
        c := c[idOuvr := c[idOuvr] + [f]];
      }
    }
  }

  /** The loop of `build_liaison_cache`. */
  method AddLiaisons(c0: map<string, seq<Feature>>, fs: seq<Feature>) returns (c: map<string, seq<Feature>>)
    ensures c == GroupBy(c0, fs, LiaisonKey)
  {
    c := c0;
    var i := 0;
    while i < |fs|
      invariant 0 <= i <= |fs|
      invariant c == GroupBy(c0, fs[..i], LiaisonKey)
    {
      assert fs[..i + 1] == fs[..i] + [fs[i]];
      GroupBySnoc(c0, fs[..i], fs[i], LiaisonKey);
      c := FileLiaison(c, fs[i]);
      i := i + 1;
    }
    assert fs[..i] == fs;
  }
}
