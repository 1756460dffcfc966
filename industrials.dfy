/**
 * The industrials service: from network nodes to the liaisons attached to
 * them, from selected liaisons to industrial ids, and from an industrial id
 * to its attribute row with the usual column names filled in.
 */
module Industrials {
  import opened Common
  import opened Layers
  import opened Ordering

  /** The liaisons whose `id_ouvrage` is one of the values (`"id_ouvrage" IN (...)`; NULL never matches). */
  function LiaisonsAt(fs: seq<Feature>, values: set<string>): (r: seq<Feature>)
    ensures forall f :: f in r <==> f in fs && Attr(f, "id_ouvrage").Some? && Attr(f, "id_ouvrage").value in values
    ensures UniqueFids(fs) ==> UniqueFids(r)
    ensures values == {} ==> r == []
  {
    if fs == [] then []
    else
      var rest := LiaisonsAt(fs[1..], values);
      assert forall f :: f in fs <==> f == fs[0] || f in fs[1..];
      if Attr(fs[0], "id_ouvrage").Some? && Attr(fs[0], "id_ouvrage").value in values then
        assert UniqueFids(fs) ==> forall f :: f in rest ==> f.fid != fs[0].fid;
        [fs[0]] + rest
      else rest
  }

  /** `[f.id() for f in ...]`. */
  function Fids(fs: seq<Feature>): (r: seq<int>)
    ensures |r| == |fs| && forall i :: 0 <= i < |fs| ==> r[i] == fs[i].fid
  {
    seq(|fs|, i requires 0 <= i < |fs| => fs[i].fid)
  }

  /** The industrial id a liaison names, when it is set and not INCONNU (exact comparison). */
  predicate NamesIndustrial(lf: Feature) {
    Truthy(Attr(lf, "id_industriel")) && Attr(lf, "id_industriel").value != INCONNU
  }

  /** The industrial ids named by some of the liaisons. */
  function IndustrialIds(ls: seq<Feature>): set<string> {
    set lf | lf in ls && NamesIndustrial(lf) :: Attr(lf, "id_industriel").value
  }

  /** The industrials whose `id` is one of the ids (`"id" IN (...)`). */
  function IndustrialFids(fs: seq<Feature>, ids: set<string>): (r: set<int>)
    ensures forall x :: x in r <==> exists f :: f in fs && f.fid == x && Attr(f, "id").Some? && Attr(f, "id").value in ids
  {
    set f | f in fs && Attr(f, "id").Some? && Attr(f, "id").value in ids :: f.fid
  }

  /** The feature's row over the given field names: NULL reads as "". */
  function RowOf(f: Feature, names: seq<string>): (r: map<string, string>)
    ensures r.Keys == Elems(names) && forall n :: n in r ==> r[n] == AsStr(Attr(f, n))
  {
    map n | n in Elems(names) :: AsStr(Attr(f, n))
  }

  /** `d.get(k, dflt)`. */
  function GetOr(m: map<string, string>, k: string, dflt: string): string {
    if k in m then m[k] else dflt
  }

  /** `d.setdefault(k, v)`: adds k only when absent. */
  function SetDefault(m: map<string, string>, k: string, v: string): (r: map<string, string>)
    ensures r.Keys == m.Keys + {k}
    ensures forall n :: n in m ==> r[n] == m[n]
    ensures k !in m ==> r[k] == v
  {
    if k in m then m else m[k := v]
  }

  /** The renaming step of `fetch`: usual column names copied from their lower-case forms, then the id. */
  function Normalize(row: map<string, string>, id: string): map<string, string> {
    var o1 := SetDefault(row, "Nom", GetOr(row, "nom", ""));
    var o2 := SetDefault(o1, "Adresse", GetOr(o1, "adresse", ""));
    var o3 := SetDefault(o2, "Activite", GetOr(o2, "activite", ""));
    var o4 := SetDefault(o3, "Risques", GetOr(o3, "risques", ""));
    var o5 := SetDefault(o4, "Produits", GetOr(o4, "produits", ""));
    var o6 := SetDefault(o5, "siret", GetOr(o5, "SIRET", GetOr(o5, "siret", "")));
    SetDefault(o6, "id", id)
  }

  /** The row `fetch` returns for an id: {} without a layer or without a matching feature. */
  function FetchRow(l: Option<LayerData>, id: string): map<string, string> {
    if l.None? then map[]
    else
      match FirstWith(l.value.features, "id", id)
      case None => map[]
      case Some(f) => Normalize(RowOf(f, l.value.fields), id)
  }

  /** The normalised column names `fetch` always adds. */
  const Usual: set<string> := {"Nom", "Adresse", "Activite", "Risques", "Produits", "siret", "id"}

  /** Setting a default for one column leaves the look-ups of every other column as they were. */
  lemma GetOrKept(m: map<string, string>, k: string, v: string, q: string, dflt: string)
    requires q != k
    ensures GetOr(SetDefault(m, k, v), q, dflt) == GetOr(m, q, dflt)
  {
  }

  /** The columns of a normalised row: the row's own and the usual ones. */
  lemma NormalizeKeys(row: map<string, string>, id: string)
    ensures Normalize(row, id).Keys == row.Keys + Usual
  {
  }

  /** Normalising never overwrites a column the row already has. */
  lemma NormalizeKeeps(row: map<string, string>, id: string)
    ensures forall n :: n in row ==> Normalize(row, id)[n] == row[n]
  {
  }

  /** A missing `id` column is filled with the id looked up. */
  lemma NormalizeId(row: map<string, string>, id: string)
    ensures "id" !in row ==> Normalize(row, id)["id"] == id
  {
  }

  /** A missing `Nom` column is filled from `nom`. */
  lemma NormalizeNom(row: map<string, string>, id: string)
    ensures "Nom" !in row ==> Normalize(row, id)["Nom"] == GetOr(row, "nom", "")
  {
  }

  /** Normalising keeps every column, adds the usual ones, and fills a missing id with the id given. */
  lemma NormalizeShape(row: map<string, string>, id: string)
    ensures var r := Normalize(row, id);
      r.Keys == row.Keys + Usual &&
      (forall n :: n in row ==> r[n] == row[n]) &&
      ("id" !in row ==> r["id"] == id) &&
      ("Nom" !in row ==> r["Nom"] == GetOr(row, "nom", ""))
  {
    NormalizeKeys(row, id);
    NormalizeKeeps(row, id);
    NormalizeId(row, id);
    NormalizeNom(row, id);
  }

  /** A missing `siret` column is filled from `SIRET`. */
  lemma NormalizeSiret(row: map<string, string>, id: string)
    ensures "siret" !in row ==> Normalize(row, id)["siret"] == GetOr(row, "SIRET", "")
  {
    var o1 := SetDefault(row, "Nom", GetOr(row, "nom", ""));
    var o2 := SetDefault(o1, "Adresse", GetOr(o1, "adresse", ""));
    var o3 := SetDefault(o2, "Activite", GetOr(o2, "activite", ""));
    var o4 := SetDefault(o3, "Risques", GetOr(o3, "risques", ""));
    var o5 := SetDefault(o4, "Produits", GetOr(o4, "produits", ""));
    GetOrKept(row, "Nom", GetOr(row, "nom", ""), "SIRET", "");
    GetOrKept(o1, "Adresse", GetOr(o1, "adresse", ""), "SIRET", "");
    GetOrKept(o2, "Activite", GetOr(o2, "activite", ""), "SIRET", "");
    GetOrKept(o3, "Risques", GetOr(o3, "risques", ""), "SIRET", "");
    GetOrKept(o4, "Produits", GetOr(o4, "produits", ""), "SIRET", "");
    GetOrKept(row, "Nom", GetOr(row, "nom", ""), "siret", "");
    GetOrKept(o1, "Adresse", GetOr(o1, "adresse", ""), "siret", "");
    GetOrKept(o2, "Activite", GetOr(o2, "activite", ""), "siret", "");
    GetOrKept(o3, "Risques", GetOr(o3, "risques", ""), "siret", "");
    GetOrKept(o4, "Produits", GetOr(o4, "produits", ""), "siret", "");
  }

  /**
   * A fetched row keeps every field value of the feature (NULL as ""), adds
   * the usual columns without overwriting, and always holds the id.
   */
  lemma FetchRowShape(l: LayerData, id: string)
    requires FirstWith(l.features, "id", id).Some?
    ensures var f := FirstWith(l.features, "id", id).value; var r := FetchRow(Some(l), id);
      r.Keys == Elems(l.fields) + Usual &&
      (forall n :: n in l.fields ==> r[n] == AsStr(Attr(f, n))) &&
      r["id"] == id &&
      ("Nom" !in l.fields ==> r["Nom"] == AsStr(Attr(f, "nom"))) &&
      ("siret" !in l.fields ==> r["siret"] == AsStr(Attr(f, "SIRET")))
  {
    var f := FirstWith(l.features, "id", id).value;
    var row := RowOf(f, l.fields);
    assert FetchRow(Some(l), id) == Normalize(row, id);
    NormalizeShape(row, id);
    NormalizeSiret(row, id);
    assert f.attrs.Keys == Elems(l.fields);
    assert "id" in row ==> row["id"] == id;
  }

  class IndustrialsService {
    const indusLayer: VectorLayer?
    const liaisonLayer: VectorLayer?

    constructor (indusLayer: VectorLayer?, liaisonLayer: VectorLayer?)
      ensures this.indusLayer == indusLayer && this.liaisonLayer == liaisonLayer
    {
      this.indusLayer := indusLayer;
      this.liaisonLayer := liaisonLayer;
    }

    /**
     * `select_liaisons_from_nodes`: the liaison selection becomes exactly the
     * liaisons at the non-empty nodes, whose ids are returned in layer order;
     * with no usable node it is cleared and nothing is returned.
     */
    method SelectLiaisonsFromNodes(nodes: set<string>) returns (ids: seq<int>)
      modifies liaisonLayer
      ensures liaisonLayer == null ==> ids == []
      ensures liaisonLayer != null ==>
        ids == Fids(LiaisonsAt(liaisonLayer.data.features, nodes - {""})) && liaisonLayer.selected == Elems(ids)
      ensures nodes - {""} == {} ==> ids == []
    {
      if liaisonLayer == null || nodes == {} {
        if liaisonLayer != null {
          liaisonLayer.RemoveSelection();
        }
        return [];
      }
      var values := nodes - {""};
      if values == {} {
        liaisonLayer.RemoveSelection();
        return [];
      }
      ids := Fids(LiaisonsAt(liaisonLayer.data.features, values));
      liaisonLayer.RemoveSelection();
      if ids != [] {
        liaisonLayer.SelectByIds(Elems(ids));
      }
    }

    /**
     * `select_industrials_from_selected_liaisons`: with both layers, the
     * industrial selection becomes the industrials named by the selected
     * liaisons, and their ids are returned sorted and once each.
     */
    method SelectIndustrialsFromSelectedLiaisons() returns (r: seq<string>)
      modifies indusLayer
      ensures liaisonLayer == null || indusLayer == null ==> r == [] && (indusLayer != null ==> indusLayer.selected == old(indusLayer.selected))
      ensures liaisonLayer != null && indusLayer != null ==>
        var ids := IndustrialIds(old(liaisonLayer.SelectedFeatures()));
        Sorted(r) && NoDup(r) && (forall x :: x in r <==> x in ids) &&
        indusLayer.selected == IndustrialFids(indusLayer.data.features, ids)
      ensures forall x :: x in r ==> x != "" && x != INCONNU
    {
      if liaisonLayer == null || indusLayer == null {
        return [];
      }
      var ls := liaisonLayer.SelectedFeatures();
      var indIds: set<string> := {};
      var i := 0;
      while i < |ls|
        invariant 0 <= i <= |ls|
        invariant indIds == IndustrialIds(ls[..i])
      {
        assert ls[..i + 1] == ls[..i] + [ls[i]];
        if NamesIndustrial(ls[i]) {
          indIds := indIds + {Attr(ls[i], "id_industriel").value};
        }
        i := i + 1;
      }
      assert ls[..i] == ls;
      indusLayer.RemoveSelection();
      if indIds != {} {
        var fids := IndustrialFids(indusLayer.data.features, indIds);
        if fids != {} {
          indusLayer.SelectByIds(fids);
        }
      }
      r := SortedList(indIds);
    }

    /**
     * `connected_ids_from_nodes`: the industrials named by the liaisons at
     * the non-empty nodes; the liaison and industrial selections are left
     * holding those liaisons and industrials.
     */
    method ConnectedIdsFromNodes(nodes: set<string>) returns (r: seq<string>)
      requires liaisonLayer != indusLayer || liaisonLayer == null
      modifies liaisonLayer, indusLayer
      ensures liaisonLayer != null && indusLayer != null ==>
        var ls := LiaisonsAt(liaisonLayer.data.features, nodes - {""});
        Sorted(r) && NoDup(r) && (forall x :: x in r <==> x in IndustrialIds(ls)) &&
        liaisonLayer.selected == Elems(Fids(ls)) &&
        indusLayer.selected == IndustrialFids(indusLayer.data.features, IndustrialIds(ls))
      ensures liaisonLayer == null || indusLayer == null ==> r == []
      ensures liaisonLayer != null ==> liaisonLayer.selected == Elems(Fids(LiaisonsAt(liaisonLayer.data.features, nodes - {""})))
      ensures liaisonLayer == null && indusLayer != null ==> indusLayer.selected == old(indusLayer.selected)
    {
      var lids := SelectLiaisonsFromNodes(nodes);
      if liaisonLayer != null {
        SelectedAreMatches(liaisonLayer.data, nodes - {""});
      }
      r := SelectIndustrialsFromSelectedLiaisons();
    }

    /** After a selection by the ids of matching liaisons, the selected features are those liaisons. */
    static lemma SelectedAreMatches(l: LayerData, values: set<string>)
      ensures IndustrialIds(FeaturesWithFids(l.features, Elems(Fids(LiaisonsAt(l.features, values))))) ==
        IndustrialIds(LiaisonsAt(l.features, values))
    {
      var ms := LiaisonsAt(l.features, values);
      var sel := FeaturesWithFids(l.features, Elems(Fids(ms)));
      forall f ensures f in sel <==> f in ms {
        if f in sel {
          var k :| 0 <= k < |Fids(ms)| && Fids(ms)[k] == f.fid;
          SameFidSameFeature(l.features, f, ms[k]);
        }
        if f in ms {
          var k :| 0 <= k < |ms| && ms[k] == f;
          assert Fids(ms)[k] == f.fid;
        }
      }
    }

    /** `fetch`: the attribute row of the first industrial with this id, normalised. */
    method Fetch(indId: string) returns (out: map<string, string>)
      ensures out == FetchRow(DataOf(indusLayer), indId)
      ensures out != map[] ==> "id" in out && out["id"] == indId
    {
      if indusLayer == null {
        return map[];
      }
      var found := FindFirstWith(indusLayer.data.features, "id", indId);
      if found.None? {
        return map[];
      }
      out := ReadRow(found.value, indusLayer.data.fields);
      out := Normalize(out, indId);
      FetchRowShape(indusLayer.data, indId);
    }

    /** The loop of `fetch` over the field names: NULL values read as "". */
    static method ReadRow(f: Feature, fields: seq<string>) returns (out: map<string, string>)
      ensures out == RowOf(f, fields)
    {
      out := map[];
      var i := 0;
      while i < |fields|
        invariant 0 <= i <= |fields|
        invariant out == RowOf(f, fields[..i])
      {
        assert Elems(fields[..i + 1]) == Elems(fields[..i]) + {fields[i]} by {
          assert fields[..i + 1] == fields[..i] + [fields[i]];
        }
        out := out[fields[i] := AsStr(Attr(f, fields[i]))];
        i := i + 1;
      }
      assert fields[..i] == fields;
    }

    /** `fetch_many`: one fetched row per requested id. */
    method FetchMany(ids: seq<string>) returns (out: map<string, map<string, string>>)
      ensures out.Keys == Elems(ids)
      ensures forall i :: i in out ==> out[i] == FetchRow(DataOf(indusLayer), i)
    {
      out := map[];
      var k := 0;
      while k < |ids|
        invariant 0 <= k <= |ids|
        invariant out.Keys == Elems(ids[..k])
        invariant forall i :: i in out ==> out[i] == FetchRow(DataOf(indusLayer), i)
      {
        assert ids[..k + 1] == ids[..k] + [ids[k]];
        var row := Fetch(ids[k]);
        out := out[ids[k] := row];
        k := k + 1;
      }
      assert ids[..k] == ids;
    }
  }
}
