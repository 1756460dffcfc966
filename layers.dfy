/**
 * In-memory vector layers: a layer is a sequence of features with a unique
 * integer id each, and a selection set that the plugin changes in place.
 * QGIS expressions and feature requests become filters over the sequence.
 */
module Layers {
  import opened Common

  /** A feature: its id, its attribute values by field name (None = NULL), its geometric length. */
  datatype Feature = Feature(fid: int, attrs: map<string, Option<string>>, geomLength: nat)

  datatype LayerContents = LayerContents(id: string, fields: seq<string>, features: seq<Feature>)

  predicate UniqueFids(fs: seq<Feature>) {
    forall i, j :: 0 <= i < j < |fs| ==> fs[i].fid != fs[j].fid
  }

  /** Feature ids are unique within a layer and every feature carries exactly the layer's fields. */
  predicate WellFormed(c: LayerContents) {
    UniqueFids(c.features) && forall f :: f in c.features ==> f.attrs.Keys == Elems(c.fields)
  }

  type LayerData = c: LayerContents | WellFormed(c) witness LayerContents("", [], [])

  /** The two line collections that form the network. */
  datatype Kind = Canal | Fosse

  /** An entry of an adjacency list: the collection the edge comes from and the edge. */
  datatype TaggedEdge = TaggedEdge(kind: Kind, feat: Feature)

  /** `f[name]`, reading a field the feature does not carry as NULL. */
  function Attr(f: Feature, name: string): Option<string> {
    if name in f.attrs then f.attrs[name] else None
  }

  /** `(f[name] or "")`. */
  function Text(f: Feature, name: string): string { AsStr(Attr(f, name)) }

  /** `(f[name] or "").strip()`. */
  function Trimmed(f: Feature, name: string): string { Strip(Text(f, name)) }

  /** The QGIS expression `trim("name") = 'v'`: NULL never matches. */
  predicate TrimEquals(f: Feature, name: string, v: string) {
    Attr(f, name).Some? && Trim(Attr(f, name).value) == v
  }

  function Features(l: Option<LayerData>): seq<Feature> {
    if l.None? then [] else l.value.features
  }

  function FidsOf(fs: seq<Feature>): set<int> { set f | f in fs :: f.fid }

  /** Two different features of a collection have different fids. */
  lemma DifferentFeatureFid(fs: seq<Feature>, f: Feature, g: Feature)
    requires UniqueFids(fs) && f in fs && g in fs && f != g
    ensures f.fid != g.fid
  {
    var i :| 0 <= i < |fs| && fs[i] == f;
    var j :| 0 <= j < |fs| && fs[j] == g;
    if i < j {
      assert fs[i].fid != fs[j].fid;
    } else {
      assert j < i && fs[j].fid != fs[i].fid;
    }
  }

  lemma SameFidSameFeature(fs: seq<Feature>, f: Feature, g: Feature)
    requires UniqueFids(fs) && f in fs && g in fs && f.fid == g.fid
    ensures f == g
  {
    var i :| 0 <= i < |fs| && fs[i] == f;
    var j :| 0 <= j < |fs| && fs[j] == g;
    assert !(i < j) && !(j < i);
  }

  /** The features whose id is in ids, in layer order (`setFilterFids`). */
  function FeaturesWithFids(fs: seq<Feature>, ids: set<int>): (r: seq<Feature>)
    ensures forall f :: f in r <==> f in fs && f.fid in ids
    ensures |r| <= |fs|
  {
    if fs == [] then []
    else
      var rest := FeaturesWithFids(fs[1..], ids);
      assert forall f :: f in fs <==> f == fs[0] || f in fs[1..];
      if fs[0].fid in ids then [fs[0]] + rest else rest
  }

  /** The first feature whose attribute name equals v (`next(getFeatures("name" = 'v'), None)`). */
  function FirstWith(fs: seq<Feature>, name: string, v: string): (r: Option<Feature>)
    ensures r.Some? ==> r.value in fs && Attr(r.value, name) == Some(v)
    ensures r.None? ==> forall f :: f in fs ==> Attr(f, name) != Some(v)
    ensures r.Some? ==> exists i :: 0 <= i < |fs| && fs[i] == r.value && forall j :: 0 <= j < i ==> Attr(fs[j], name) != Some(v)
  {
    if fs == [] then None
    else if Attr(fs[0], name) == Some(v) then Some(fs[0])
    else
      var r := FirstWith(fs[1..], name, v);
      assert forall f :: f in fs <==> f == fs[0] || f in fs[1..];
      if r.Some? then
        var i :| 0 <= i < |fs[1..]| && fs[1..][i] == r.value && forall j :: 0 <= j < i ==> Attr(fs[1..][j], name) != Some(v);
        assert fs[i + 1] == r.value && forall j :: 0 <= j < i + 1 ==> Attr(fs[j], name) != Some(v);
        r
      else r
  }

  /** The loop over the query's features that stops at the first match. */
  method FindFirstWith(fs: seq<Feature>, name: string, v: string) returns (r: Option<Feature>)
    ensures r == FirstWith(fs, name, v)
  {
    var k := 0;
    while k < |fs| && Attr(fs[k], name) != Some(v)
      invariant 0 <= k <= |fs|
      invariant forall j :: 0 <= j < k ==> Attr(fs[j], name) != Some(v)
    {
      k := k + 1;
    }
    if k == |fs| {
      return None;
    }
    r := Some(fs[k]);
    assert fs[k] in fs;
    var g := FirstWith(fs, name, v);
    assert g.Some?;
    var i :| 0 <= i < |fs| && fs[i] == g.value && forall j :: 0 <= j < i ==> Attr(fs[j], name) != Some(v);
    assert !(i < k) && !(k < i);
  }

  /** A layer as the plugin sees it: fixed contents and a mutable selection. */
  class VectorLayer {
    const data: LayerData
    var selected: set<int>

    constructor (data: LayerData)
      ensures this.data == data && selected == {}
    {
      this.data := data;
      selected := {};
    }

    /** `selectByIds(ids)`: the selection becomes exactly ids. */
    method SelectByIds(ids: set<int>)
      modifies this
      ensures selected == ids
    {
      selected := ids;
    }

    /** `deselect(ids)`. */
    method Deselect(ids: set<int>)
      modifies this
      ensures selected == old(selected) - ids
    {
      selected := selected - ids;
    }

    /** `removeSelection()`. */
    method RemoveSelection()
      modifies this
      ensures selected == {}
    {
      selected := {};
    }

    /** `selectedFeatures()`, in layer order. */
    function SelectedFeatures(): seq<Feature>
      reads this
    {
      FeaturesWithFids(data.features, selected)
    }
  }

  function DataOf(l: VectorLayer?): Option<LayerData> {
    if l == null then None else Some(l.data)
  }

  /** `set(layer.selectedFeatureIds()) if layer else set()`. */
  function SelectionOf(l: VectorLayer?): set<int>
    reads l
  {
    if l == null then {} else l.selected
  }
}
