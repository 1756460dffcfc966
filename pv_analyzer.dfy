/**
 * The conformity reports ("PV") found along a traced network: the list of
 * non-conforming reports, the active part of it left after branches are cut,
 * and the report designated as the source of the pollution.
 */
module PvAnalyzer {
  import opened Common
  import opened Layers

  /** A Python value read from a report: an int, a text, or None/NULL. */
  datatype Val = VInt(i: int) | VStr(s: string) | VNone

  /** An attribute value as read from a layer. */
  function ValOf(v: Option<string>): Val {
    if v.Some? then VStr(v.value) else VNone
  }

  /** The dictionary built for each report found (its distance and geometry left out). */
  datatype Pv = Pv(
    id: Val, numPv: Val, adresse: Val, codePostal: Val, commune: Val, conforme: Val,
    euVersEp: Val, epVersEu: Val, datePv: Val, nbChamb: Val, surfEp: Val, lienOsmose: Val,
    lat: Val, lon: Val, canalRattache: Val)

  /**
   * A report whose geometry meets the buffer around a conduit of the path,
   * in the order the search finds them (conduit after conduit, then layer order).
   */
  datatype Hit = Hit(canal: Feature, pv: Feature)

  /** `f[name] if name in fields else default`. */
  function FieldOr(f: Feature, name: string, default: Val): Val {
    if name in f.attrs then ValOf(f.attrs[name]) else default
  }

  function Conforme(pv: Feature): Val { FieldOr(pv, "conforme", VStr("Non")) }

  function PvId(pv: Feature): Val { FieldOr(pv, "id", VInt(pv.fid)) }

  /** `canal_feat['idcanal']` when the conduit layer has that field, its feature id otherwise. */
  function CanalId(canal: Feature): Val { FieldOr(canal, "idcanal", VInt(canal.fid)) }

  /** The dictionary of one hit. */
  function PvData(h: Hit): Pv {
    var f := h.pv;
    Pv(PvId(f), FieldOr(f, "num_pv", VStr("N/A")), FieldOr(f, "adresse", VStr("N/A")),
       FieldOr(f, "code_posta", VStr("")), FieldOr(f, "nom_com", VStr("N/A")), Conforme(f),
       FieldOr(f, "eu_vers_ep", VStr("Non")), FieldOr(f, "ep_vers_eu", VStr("Non")),
       FieldOr(f, "date_pv", VStr("N/A")), FieldOr(f, "nb_chamb", VStr("N/A")),
       FieldOr(f, "surf_ep", VInt(0)), FieldOr(f, "lien_osmose", VStr("")),
       FieldOr(f, "lat", VNone), FieldOr(f, "lon", VNone), CanalId(h.canal))
  }

  function IdsOf(l: seq<Pv>): seq<Val>
    decreases |l|
  {
    if l == [] then [] else IdsOf(l[..|l| - 1]) + [l[|l| - 1].id]
  }

  lemma {:induction false} IdsOfIndex(l: seq<Pv>)
    ensures |IdsOf(l)| == |l| && forall i :: 0 <= i < |l| ==> IdsOf(l)[i] == l[i].id
    decreases |l|
  {
    if l != [] {
      IdsOfIndex(l[..|l| - 1]);
    }
  }

  /** A report that is not conforming (`conforme == 'Non'`). */
  predicate NonConforming(h: Hit) { Conforme(h.pv) == VStr("Non") }

  /**
   * The list of reports the search builds from its hits: the non-conforming
   * ones, each id once, the first hit with that id giving the entry.
   */
  function Found(hits: seq<Hit>): seq<Pv>
    decreases |hits|
  {
    if hits == [] then []
    else
      var rest := Found(hits[..|hits| - 1]);
      var h := hits[|hits| - 1];
      if NonConforming(h) && PvId(h.pv) !in IdsOf(rest) then rest + [PvData(h)] else rest
  }

  /**
   * The found list has no two entries with the same id, holds only entries of
   * non-conforming hits, and has an entry for the id of every non-conforming hit.
   */
  lemma {:induction false} FoundProps(hits: seq<Hit>)
    ensures NoDup(IdsOf(Found(hits)))
    ensures forall p :: p in Found(hits) ==> exists h :: h in hits && NonConforming(h) && PvData(h) == p
    ensures forall h :: h in hits && NonConforming(h) ==> PvId(h.pv) in IdsOf(Found(hits))
    decreases |hits|
  {
    if hits != [] {
      var init := hits[..|hits| - 1];
      var h := hits[|hits| - 1];
      var rest := Found(init);
      FoundProps(init);
      assert forall g :: g in hits <==> g in init || g == h;
      if NonConforming(h) && PvId(h.pv) !in IdsOf(rest) {
        assert IdsOf(rest + [PvData(h)]) == IdsOf(rest) + [PvId(h.pv)] by {
          assert (rest + [PvData(h)])[..|rest|] == rest;
        }
        NoDupSnoc(IdsOf(rest), PvId(h.pv));
      }
    }
  }

  /** The entry for an id comes from the first non-conforming hit with that id. */
  lemma {:induction false} FoundFirst(hits: seq<Hit>, i: nat)
    requires i < |hits| && NonConforming(hits[i])
    requires forall k :: 0 <= k < i ==> !(NonConforming(hits[k]) && PvId(hits[k].pv) == PvId(hits[i].pv))
    ensures PvData(hits[i]) in Found(hits)
    decreases |hits|
  {
    var init := hits[..|hits| - 1];
    if i < |hits| - 1 {
      FoundFirst(init, i);
    } else {
      FoundNoneBefore(init, PvId(hits[i].pv));
    }
  }

  /** An id no non-conforming hit carries is not in the found list. */
  lemma {:induction false} FoundNoneBefore(hits: seq<Hit>, id: Val)
    requires forall k :: 0 <= k < |hits| ==> !(NonConforming(hits[k]) && PvId(hits[k].pv) == id)
    ensures id !in IdsOf(Found(hits))
    decreases |hits|
  {
    if hits != [] {
      var init := hits[..|hits| - 1];
      FoundNoneBefore(init, id);
      var rest := Found(init);
      var h := hits[|hits| - 1];
      if NonConforming(h) && PvId(h.pv) !in IdsOf(rest) {
        assert IdsOf(rest + [PvData(h)]) == IdsOf(rest) + [PvId(h.pv)] by {
          assert (rest + [PvData(h)])[..|rest|] == rest;
        }
      }
    }
  }

  /** `[pv for pv in pv_list if pv['canal_rattache'] not in excluded]`. */
  function KeepActive(l: seq<Pv>, excluded: seq<Val>): seq<Pv>
    decreases |l|
  {
    if l == [] then []
    else
      var rest := KeepActive(l[..|l| - 1], excluded);
      if l[|l| - 1].canalRattache !in excluded then rest + [l[|l| - 1]] else rest
  }

  /** What survives is exactly the entries attached to a conduit that is not excluded. */
  lemma {:induction false} KeepActiveMembers(l: seq<Pv>, excluded: seq<Val>)
    ensures forall p :: p in KeepActive(l, excluded) <==> p in l && p.canalRattache !in excluded
    ensures |KeepActive(l, excluded)| <= |l|
    decreases |l|
  {
    if l != [] {
      KeepActiveMembers(l[..|l| - 1], excluded);
      assert forall p :: p in l <==> p in l[..|l| - 1] || p == l[|l| - 1];
    }
  }

  /** Filtering keeps order: it filters each part of a list separately. */
  lemma {:induction false} KeepActiveAppend(a: seq<Pv>, b: seq<Pv>, excluded: seq<Val>)
    ensures KeepActive(a + b, excluded) == KeepActive(a, excluded) + KeepActive(b, excluded)
    decreases |b|
  {
    if b == [] {
      assert a + b == a;
    } else {
      var b0 := b[..|b| - 1];
      KeepActiveAppend(a, b0, excluded);
      assert (a + b)[..|a + b| - 1] == a + b0;
    }
  }

  /** Nothing excluded leaves the list as it is. */
  lemma {:induction false} KeepActiveNone(l: seq<Pv>)
    ensures KeepActive(l, []) == l
    decreases |l|
  {
    if l != [] {
      KeepActiveNone(l[..|l| - 1]);
    }
  }

  /** Two exclusions in a row are one exclusion of both lists; in particular excluding again changes nothing. */
  lemma {:induction false} KeepActiveTwice(l: seq<Pv>, e1: seq<Val>, e2: seq<Val>)
    ensures KeepActive(KeepActive(l, e1), e2) == KeepActive(l, e1 + e2)
    ensures KeepActive(KeepActive(l, e1), e1) == KeepActive(l, e1)
    decreases |l|
  {
    if l != [] {
      var init := l[..|l| - 1];
      var p := l[|l| - 1];
      KeepActiveTwice(init, e1, e2);
      var k := KeepActive(init, e1);
      if p.canalRattache !in e1 {
        assert (k + [p])[..|k + [p]| - 1] == k;
      }
    }
  }

  /** `next((p for p in l if p['id'] == id), None)`. */
  function FirstById(l: seq<Pv>, id: Val): (r: Option<Pv>)
    ensures r.Some? ==> r.value in l && r.value.id == id
    ensures r.None? <==> forall p :: p in l ==> p.id != id
  {
    if l == [] then None
    else if l[0].id == id then Some(l[0])
    else
      assert forall p :: p in l <==> p == l[0] || p in l[1..];
      FirstById(l[1..], id)
  }

  /** The kinds of problem a polluting report shows, in the order they are listed. */
  function Problemes(p: Pv): seq<string> {
    var eu := if p.euVersEp == VStr("Oui") then ["EU → EP (inversion)"] else [];
    var ep := if p.epVersEu == VStr("Oui") then ["EP → EU (inversion)"] else [];
    if eu + ep == [] then ["Non-conformité générale"] else eu + ep
  }

  /**
   * Each `Oui` flag gives its line, EU → EP first; without one the only line
   * is the general non-conformity; the text is the lines joined by ", ".
   */
  lemma ProblemesSpec(p: Pv)
    ensures "EU → EP (inversion)" in Problemes(p) <==> p.euVersEp == VStr("Oui")
    ensures "EP → EU (inversion)" in Problemes(p) <==> p.epVersEu == VStr("Oui")
    ensures Problemes(p) == ["Non-conformité générale"] <==> p.euVersEp != VStr("Oui") && p.epVersEu != VStr("Oui")
    ensures 1 <= |Problemes(p)| <= 2 && (p.euVersEp == VStr("Oui") ==> Problemes(p)[0] == "EU → EP (inversion)")
  {
    assert "EU → EP (inversion)" != "EP → EU (inversion)" by {
      assert "EU → EP (inversion)"[1] != "EP → EU (inversion)"[1];
    }
    assert "Non-conformité générale" != "EU → EP (inversion)" && "Non-conformité générale" != "EP → EU (inversion)" by {
      assert "Non-conformité générale"[0] != "EU → EP (inversion)"[0];
    }
  }

  /** With both flags set the text names both inversions, EU → EP first. */
  lemma ProblemesJoin(p: Pv)
    requires p.euVersEp == VStr("Oui") && p.epVersEu == VStr("Oui")
    ensures Join(Problemes(p), ", ") == "EU → EP (inversion), EP → EU (inversion)"
  {
    var two := ["EU → EP (inversion)", "EP → EU (inversion)"];
    assert Problemes(p) == two;
    assert two[1..] == ["EP → EU (inversion)"];
  }

  /** The dictionary `get_polluter_info` returns (the geometry left out). */
  datatype PolluterInfo = PolluterInfo(
    kind: string, id: Val, numPv: Val, adresse: Val, codePostal: Val, commune: Val, conforme: Val,
    euVersEp: Val, epVersEu: Val, dateControle: Val, nbChambres: Val, surfEp: Val, lienOsmose: Val,
    lat: Val, lon: Val, problemes: seq<string>, problemesStr: string)

  function InfoOf(p: Pv): PolluterInfo {
    PolluterInfo("PV non conforme", p.id, p.numPv, p.adresse, p.codePostal, p.commune, p.conforme,
      p.euVersEp, p.epVersEu, p.datePv, p.nbChamb, p.surfEp, p.lienOsmose, p.lat, p.lon,
      Problemes(p), Join(Problemes(p), ", "))
  }

  /** The dictionary `export_to_dict` returns. */
  datatype Export = Export(total: nat, actifs: nat, pollueur: Option<PolluterInfo>, liste: seq<Pv>)

  class PVAnalyzer {
    var pvLayer: VectorLayer?
    var pvList: seq<Pv>
    var pvActifs: seq<Pv>
    var pvPollueur: Option<Pv>
    /** The exclusion the active list was last computed with. */
    ghost var excluded: seq<Val>

    /** The found list has unique ids and the active list is it, less the reports on excluded conduits. */
    ghost predicate Valid()
      reads this
    {
      NoDup(IdsOf(pvList)) && pvActifs == KeepActive(pvList, excluded)
    }

    constructor (layer: VectorLayer?)
      ensures Valid()
      ensures pvLayer == layer && pvList == [] && pvActifs == [] && pvPollueur == None
    {
      pvLayer := layer;
      pvList := [];
      pvActifs := [];
      pvPollueur := None;
      excluded := [];
    }

    /** `set_pv_layer`: a new layer forgets every report and the polluter. */
    method SetPvLayer(layer: VectorLayer?)
      modifies this
      ensures Valid()
      ensures pvLayer == layer && pvList == [] && pvActifs == [] && pvPollueur == None
    {
      pvLayer := layer;
      pvList := [];
      pvActifs := [];
      pvPollueur := None;
      excluded := [];
    }

    /**
     * `find_pv_near_path` after the geometric search: without a layer nothing
     * changes; otherwise the found list is rebuilt from the hits and the active
     * list becomes a copy of it. The polluter is kept.
     */
    method FindPvNearPath(hits: seq<Hit>) returns (r: seq<Pv>)
      requires Valid()
      modifies this
      ensures Valid()
      ensures old(pvLayer) == null ==> r == [] && pvList == old(pvList) && pvActifs == old(pvActifs)
      ensures old(pvLayer) != null ==> r == pvList == pvActifs == Found(hits)
      ensures pvLayer == old(pvLayer) && pvPollueur == old(pvPollueur)
    {
      if pvLayer == null {
        return [];
      }
      pvList := [];
      var i := 0;
      while i < |hits|
        invariant 0 <= i <= |hits|
        invariant pvList == Found(hits[..i])
        invariant pvLayer == old(pvLayer) && pvPollueur == old(pvPollueur)
      {
        pvList := ScanHit(hits, i, pvList);
        i := i + 1;
      }
      assert hits[..i] == hits;
      FoundProps(hits);
      pvActifs := pvList;
      excluded := [];
      KeepActiveNone(pvList);
      r := pvList;
    }

    /** One turn of the loop over the hits: a non-conforming hit with a new id is appended. */
    static method ScanHit(hits: seq<Hit>, i: nat, found: seq<Pv>) returns (found': seq<Pv>)
      requires i < |hits| && found == Found(hits[..i])
      ensures found' == Found(hits[..i + 1])
    {
      assert hits[..i + 1][..i] == hits[..i];
      found' := found;
      var h := hits[i];
      if Conforme(h.pv) == VStr("Non") {
        var pvId := PvId(h.pv);
        var known := AnyWithId(found, pvId);
        if !known {
          found' := found + [PvData(h)];
        }
      }
    }

    /** `any(p['id'] == id for p in l)`. */
    static method AnyWithId(l: seq<Pv>, id: Val) returns (b: bool)
      ensures b <==> id in IdsOf(l)
    {
      IdsOfIndex(l);
      b := false;
      var k := 0;
      while k < |l|
        invariant 0 <= k <= |l|
        invariant b <==> exists j :: 0 <= j < k && l[j].id == id
      {
        if l[k].id == id {
          b := true;
        }
        k := k + 1;
      }
      if b {
        var j :| 0 <= j < k && l[j].id == id;
        assert IdsOf(l)[j] == id;
      }
    }

    /**
     * `update_after_exclusion`: the active list is recomputed from the whole
     * found list, dropping the reports attached to an excluded conduit (none
     * for an empty exclusion); the found list and the polluter are kept.
     */
    method UpdateAfterExclusion(canalisationsExclues: seq<Val>) returns (r: seq<Pv>)
      requires Valid()
      modifies this
      ensures Valid()
      ensures canalisationsExclues == [] ==> pvActifs == pvList
      ensures pvActifs == KeepActive(pvList, canalisationsExclues) && r == pvActifs
      ensures pvList == old(pvList) && pvPollueur == old(pvPollueur) && pvLayer == old(pvLayer)
    {
      if canalisationsExclues == [] {
        pvActifs := pvList;
        excluded := [];
        KeepActiveNone(pvList);
        return pvActifs;
      }
      pvActifs := KeepActive(pvList, canalisationsExclues);
      excluded := canalisationsExclues;
      r := pvActifs;
    }

    /** `get_pv_by_id`: the first active report with that id. */
    function GetPvById(pvId: Val): (r: Option<Pv>)
      reads this
      ensures r.Some? ==> r.value in pvActifs && r.value.id == pvId
      ensures r.None? <==> pvId !in IdsOf(pvActifs)
    {
      IdsOfIndex(pvActifs);
      assert forall p :: p in pvActifs ==> p.id in IdsOf(pvActifs) by {
        forall p | p in pvActifs ensures p.id in IdsOf(pvActifs) {
          var j :| 0 <= j < |pvActifs| && pvActifs[j] == p;
          assert IdsOf(pvActifs)[j] == p.id;
        }
      }
      FirstById(pvActifs, pvId)
    }

    /**
     * `designate_as_polluter`: succeeds exactly when an active report has the
     * id, and then that report becomes the polluter; otherwise nothing changes.
     */
    method DesignateAsPolluter(pvId: Val) returns (ok: bool)
      requires Valid()
      modifies this
      ensures Valid()
      ensures ok <==> pvId in IdsOf(pvActifs)
      ensures ok ==> pvPollueur.Some? && pvPollueur.value in pvActifs && pvPollueur.value.id == pvId
      ensures !ok ==> pvPollueur == old(pvPollueur)
      ensures pvList == old(pvList) && pvActifs == old(pvActifs) && pvLayer == old(pvLayer)
    {
      var pv := GetPvById(pvId);
      if pv.Some? {
        pvPollueur := pv;
        return true;
      }
      return false;
    }

    /** `get_polluter_info`: nothing before a polluter is designated. */
    function GetPolluterInfo(): (r: Option<PolluterInfo>)
      reads this
      ensures r.None? <==> pvPollueur.None?
      ensures r.Some? ==> (r.value.kind == "PV non conforme" && r.value.id == pvPollueur.value.id && r.value.problemesStr == Join(r.value.problemes, ", "))
    {
      if pvPollueur.None? then None else Some(InfoOf(pvPollueur.value))
    }

    /** `get_pv_count`. */
    function GetPvCount(): nat
      reads this
    {
      |pvActifs|
    }

    /** `clear`: both lists emptied and the polluter forgotten; the layer is kept. */
    method Clear()
      requires Valid()
      modifies this
      ensures Valid()
      ensures pvList == [] && pvActifs == [] && pvPollueur == None && pvLayer == old(pvLayer)
    {
      pvList := [];
      pvActifs := [];
      pvPollueur := None;
      excluded := [];
    }

    /** `export_to_dict`: the counts, the polluter's information and the active list. */
    function ExportToDict(): Export
      reads this
    {
      Export(|pvList|, |pvActifs|, GetPolluterInfo(), pvActifs)
    }
  }

  /**
   * Between calls the active reports are found reports: their count is at most
   * the number found, and the export lists them with both counts.
   */
  lemma ActiveWithinFound(a: PVAnalyzer)
    requires a.Valid()
    ensures a.GetPvCount() <= |a.pvList| && forall p :: p in a.pvActifs ==> p in a.pvList
    ensures a.ExportToDict().total == |a.pvList| && a.ExportToDict().actifs == a.GetPvCount() == |a.ExportToDict().liste|
    ensures a.ExportToDict().liste == a.pvActifs && a.ExportToDict().pollueur == a.GetPolluterInfo()
  {
    KeepActiveMembers(a.pvList, a.excluded);
  }
}
