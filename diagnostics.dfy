/**
 * The two rules the diagnostics run over the selected conduits: an EU/EP
 * inversion against the structure at either end of a conduit, and a
 * diameter reduction at its upstream node.
 */
module Diagnostics {
  import opened Common
  import opened Layers

  /** What a reported line says; `Info` renders it as the dock shows it. */
  datatype Message =
    | InversionMsg(direction: string, pos: string, oid: string, status: string)
    | ReductionMsg(dmax: int, diam: int, seuil: int, node: string)

  /** One reported line: `(f.id(), text, other id)`, the text kept as its parts. */
  datatype Finding = Finding(fid: int, msg: Message, ref: int)

  /** The `{"INVERSIONS": ..., "REDUCTIONS": ...}` result. */
  datatype Report = Report(inversions: seq<Finding>, reductions: seq<Finding>)

  const Unchecked: string := "Inversion à vérifier"

  /** The codes with a label of their own. */
  predicate MappedCode(code: string) { code == "1" || code == "2" || code == "3" || code == "4" }

  /** `inversion_mapping.get(code, "Inversion à vérifier")`. */
  function InversionLabel(code: string): string {
    if code == "1" then "Inversion EP dans EU avérée"
    else if code == "2" then "Inversion EU dans EP avérée"
    else if code == "3" then "Trop-plein EP dans EU"
    else if code == "4" then "Trop-plein EU dans EP"
    else Unchecked
  }

  /** A code gets the default label exactly when it is not one of the four, and the four labels differ. */
  lemma InversionLabelIff(code: string, other: string)
    ensures InversionLabel(code) == Unchecked <==> !MappedCode(code)
    ensures MappedCode(code) && MappedCode(other) && code != other ==> InversionLabel(code) != InversionLabel(other)
  {
    assert "1" != "2" && "1" != "3" && "1" != "4" && "2" != "3" && "2" != "4" && "3" != "4";
  }

  /** The status of an inversion: read from the `inversion` field when the layer has one (NULL reads ""). */
  function Status(hasField: bool, f: Feature): string {
    if !hasField then Unchecked
    else
      var code := Strip(Text(f, "inversion"));
      if code != "" then InversionLabel(code) else Unchecked
  }

  lemma StatusIff(hasField: bool, f: Feature)
    ensures Status(hasField, f) != Unchecked <==> hasField && MappedCode(Strip(Text(f, "inversion")))
    ensures hasField && MappedCode(Strip(Text(f, "inversion"))) ==> Status(hasField, f) == InversionLabel(Strip(Text(f, "inversion")))
  {
    InversionLabelIff(Strip(Text(f, "inversion")), "");
  }

  predicate IsNetworkCode(t: string) { t == "01" || t == "02" }

  /** The direction of an inversion between the conduit's network code and the structure's. */
  function Direction(typC: string, typO: string): Option<string> {
    if IsNetworkCode(typC) && IsNetworkCode(typO) && typC != typO then
      if typC == "02" && typO == "01" then Some("EU → EP")
      else if typC == "01" && typO == "02" then Some("EP → EU")
      else None
    else None
  }

  /** An inversion is found exactly when both codes are 01 or 02 and differ; 02 over 01 reads EU → EP. */
  lemma DirectionIff(typC: string, typO: string)
    ensures Direction(typC, typO).Some? <==> IsNetworkCode(typC) && IsNetworkCode(typO) && typC != typO
    ensures Direction(typC, typO) == Some("EU → EP") <==> typC == "02" && typO == "01"
    ensures Direction(typC, typO) == Some("EP → EU") <==> typC == "01" && typO == "02"
  {
    assert "EU → EP" != "EP → EU" by {
      assert "EU → EP"[0] != "EP → EU"[0] || "EU → EP"[1] != "EP → EU"[1];
    }
  }

  /** The text of a line. */
  function Info(m: Message): string {
    match m
    case InversionMsg(d, pos, oid, status) =>
      "Inversion " + d + " (" + pos + " de l’ouvrage " + oid + ") - " + status
    case ReductionMsg(dmax, diam, seuil, node) =>
      "Réduction de diamètre : " + ShowInt(dmax) + " → " + ShowInt(diam) + " (seuil " + ShowInt(seuil) + " mm) sur ouvrage " + node
  }

  /** An endpoint that is set and not INCONNU (compared as stored, unstripped). */
  predicate UsableEnd(oid: Option<string>) { Truthy(oid) && oid.value != INCONNU }

  /**
   * The inversion check at one endpoint: the first structure whose
   * `idouvrage` is the endpoint, compared by network code.
   */
  function EndpointFindings(f: Feature, typC: string, oid: Option<string>, pos: string,
                            ouvr: seq<Feature>, hasField: bool): seq<Finding> {
    if !UsableEnd(oid) then []
    else match FirstWith(ouvr, "idouvrage", oid.value)
      case None => []
      case Some(o) =>
        match Direction(typC, Strip(Text(o, "typreseau")))
        case None => []
        case Some(d) => [Finding(f.fid, InversionMsg(d, pos, oid.value, Status(hasField, f)), o.fid)]
  }

  /**
   * An endpoint reports at most one inversion, and one exactly when it is
   * usable, a structure carries it, and the first such structure's code and
   * the conduit's are 01 and 02 in some order; the line names the conduit
   * and that structure.
   */
  lemma EndpointIff(f: Feature, typC: string, oid: Option<string>, pos: string, ouvr: seq<Feature>, hasField: bool)
    ensures var r := EndpointFindings(f, typC, oid, pos, ouvr, hasField);
      |r| <= 1 &&
      (r != [] <==>
        UsableEnd(oid) && FirstWith(ouvr, "idouvrage", oid.value).Some? &&
        IsNetworkCode(typC) && IsNetworkCode(Strip(Text(FirstWith(ouvr, "idouvrage", oid.value).value, "typreseau"))) &&
        typC != Strip(Text(FirstWith(ouvr, "idouvrage", oid.value).value, "typreseau"))) &&
      (r != [] ==> (r[0].fid == f.fid && r[0].ref == FirstWith(ouvr, "idouvrage", oid.value).value.fid && r[0].ref in FidsOf(ouvr)))
  {
    if UsableEnd(oid) && FirstWith(ouvr, "idouvrage", oid.value).Some? {
      var o := FirstWith(ouvr, "idouvrage", oid.value).value;
      DirectionIff(typC, Strip(Text(o, "typreseau")));
    }
  }

  /** Both endpoints of a conduit, upstream (`amont`) then downstream (`aval`). */
  function InversionsOf(f: Feature, ouvr: seq<Feature>, hasField: bool): seq<Finding> {
    var typC := Strip(Text(f, "typreseau"));
    EndpointFindings(f, typC, Attr(f, "idnini"), "amont", ouvr, hasField) +
    EndpointFindings(f, typC, Attr(f, "idnterm"), "aval", ouvr, hasField)
  }

  /** `_to_int(v)`: `int(str(v).strip())`, or -1 when that fails; a NULL reads "None" and fails. */
  function ToInt(v: Option<string>): int {
    if v.None? then -1
    else match ParseInt(Strip(v.value))
      case Some(i) => i
      case None => -1
  }

  /** Text holding an integer gives that integer back. */
  lemma ToIntShow(i: int)
    ensures ToInt(Some(ShowInt(i))) == i
  {
    ParseShowInt(i);
    var t := ShowInt(i);
    assert t != [] && !IsSpace(t[0]) && !IsSpace(t[|t| - 1]) by {
      if i < 0 {
        assert t[1..] == ShowNat(-i);
      }
    }
    assert TrimLeft(PyBlanks, t) == t;
    assert TrimRight(PyBlanks, t) == t;
  }

  /** NULL, and text without a digit, give -1. */
  lemma ToIntNoDigit(s: string)
    ensures ToInt(None) == -1
    ensures (forall k :: 0 <= k < |s| ==> !IsDigit(s[k])) ==> ToInt(Some(s)) == -1
  {
    var st := Strip(s);
    if forall k :: 0 <= k < |s| ==> !IsDigit(s[k]) {
      forall k | 0 <= k < |st| ensures !IsDigit(st[k]) {
        assert st[k] == s[LeadLen(PyBlanks, s) + k];
      }
      if st != [] && (st[0] == '-' || st[0] == '+') && st[1..] != [] {
        assert !IsDigit(st[1..][0]);
      }
    }
  }

  /** The threshold: 50 mm on network 02, 200 mm on 01 and on any other code. */
  function Threshold(typC: string): int {
    var t := if IsNetworkCode(typC) then typC else "01";
    if t == "02" then 50 else 200
  }

  lemma ThresholdIff(typC: string)
    ensures Threshold(typC) == 50 <==> typC == "02"
    ensures Threshold(typC) != 50 ==> Threshold(typC) == 200
  {
  }

  /** The number of features whose attribute name equals v (`"name" = 'v'`). */
  function CountWith(fs: seq<Feature>, name: string, v: string): nat
    decreases |fs|
  {
    if fs == [] then 0
    else CountWith(fs[..|fs| - 1], name, v) + (if Attr(fs[|fs| - 1], name) == Some(v) then 1 else 0)
  }

  /** The positive diameters of the conduits arriving at node, in layer order. */
  function DiamsInto(fs: seq<Feature>, node: string): seq<int>
    decreases |fs|
  {
    if fs == [] then []
    else
      var g := fs[|fs| - 1];
      var d := ToInt(Attr(g, "diametre"));
      DiamsInto(fs[..|fs| - 1], node) + (if Attr(g, "idnterm") == Some(node) && d > 0 then [d] else [])
  }

  lemma {:induction false} DiamsIntoMember(fs: seq<Feature>, node: string, x: int)
    ensures x in DiamsInto(fs, node) <==>
      exists g :: g in fs && Attr(g, "idnterm") == Some(node) && ToInt(Attr(g, "diametre")) == x && x > 0
    decreases |fs|
  {
    if fs != [] {
      DiamsIntoMember(fs[..|fs| - 1], node, x);
      assert forall g :: g in fs <==> g in fs[..|fs| - 1] || g == fs[|fs| - 1];
    }
  }

  /** A positive diameter arriving at the node means at least one conduit arrives there. */
  lemma {:induction false} DiamsIntoCounted(fs: seq<Feature>, node: string)
    ensures DiamsInto(fs, node) != [] ==> CountWith(fs, "idnterm", node) >= 1
    decreases |fs|
  {
    if fs != [] {
      DiamsIntoCounted(fs[..|fs| - 1], node);
    }
  }

  /** `max(xs)`. */
  function Max(xs: seq<int>): (m: int)
    requires xs != []
    ensures m in xs && forall x :: x in xs ==> x <= m
  {
    if |xs| == 1 then xs[0]
    else
      var m := Max(xs[..|xs| - 1]);
      assert forall x :: x in xs ==> x in xs[..|xs| - 1] || x == xs[|xs| - 1];
      if xs[|xs| - 1] > m then xs[|xs| - 1] else m
  }

  /**
   * The reduction check of a conduit with a positive diameter: at its
   * usable `idnini`, at least one conduit arrives, exactly one leaves (itself),
   * and the largest positive arriving diameter exceeds its own by more than
   * the threshold.
   */
  function ReductionOf(f: Feature, canal: seq<Feature>): Option<Finding> {
    var diam := ToInt(Attr(f, "diametre"));
    if diam <= 0 then None
    else
      var seuil := Threshold(Strip(Text(f, "typreseau")));
      var ini := Attr(f, "idnini");
      if !UsableEnd(ini) then None
      else
        var ds := DiamsInto(canal, ini.value);
        if CountWith(canal, "idnterm", ini.value) >= 1 && CountWith(canal, "idnini", ini.value) == 1 && ds != [] && Max(ds) - diam > seuil
        then Some(Finding(f.fid, ReductionMsg(Max(ds), diam, seuil, ini.value), f.fid))
        else None
  }

  /**
   * A reduction is reported exactly when the conduit's diameter is positive,
   * its `idnini` is usable, exactly one conduit leaves that node, and some
   * conduit arriving there has a positive diameter exceeding the conduit's by
   * more than the threshold; the line names the conduit twice.
   */
  lemma ReductionIff(f: Feature, canal: seq<Feature>)
    ensures var diam := ToInt(Attr(f, "diametre")); var ini := Attr(f, "idnini");
      ReductionOf(f, canal).Some? <==>
        diam > 0 && UsableEnd(ini) && CountWith(canal, "idnini", ini.value) == 1 &&
        exists g :: g in canal && Attr(g, "idnterm") == ini && ToInt(Attr(g, "diametre")) > 0 &&
          ToInt(Attr(g, "diametre")) - diam > Threshold(Strip(Text(f, "typreseau")))
  {
    var diam := ToInt(Attr(f, "diametre"));
    var ini := Attr(f, "idnini");
    var seuil := Threshold(Strip(Text(f, "typreseau")));
    if diam > 0 && UsableEnd(ini) {
      var ds := DiamsInto(canal, ini.value);
      DiamsIntoCounted(canal, ini.value);
      if ds != [] {
        DiamsIntoMember(canal, ini.value, Max(ds));
      }
      forall g | g in canal && Attr(g, "idnterm") == ini && ToInt(Attr(g, "diametre")) > 0
        ensures ToInt(Attr(g, "diametre")) in ds
      {
        DiamsIntoMember(canal, ini.value, ToInt(Attr(g, "diametre")));
      }
    }
  }

  /** The reduction of a conduit as a list of zero or one line. */
  function Listed(red: Option<Finding>): (r: seq<Finding>)
    ensures red.None? <==> r == []
    ensures forall x :: x in r ==> red == Some(x)
  {
    if red.Some? then [red.value] else []
  }

  /** The loop over the selected conduits: their inversions, then their reductions, conduit after conduit. */
  function RunOver(sel: seq<Feature>, canal: seq<Feature>, ouvr: seq<Feature>, hasField: bool): Report
    decreases |sel|
  {
    if sel == [] then Report([], [])
    else
      var prev := RunOver(sel[..|sel| - 1], canal, ouvr, hasField);
      var f := sel[|sel| - 1];
      var red := ReductionOf(f, canal);
      Report(prev.inversions + InversionsOf(f, ouvr, hasField),
             prev.reductions + Listed(red))
  }

  /** `run_selected_only`: nothing without both layers or without a selection. */
  function RunSpec(canal: Option<LayerData>, sel: set<int>, ouvr: Option<LayerData>): Report {
    if canal.None? || ouvr.None? || sel == {} then Report([], [])
    else
      var l := canal.value;
      RunOver(FeaturesWithFids(l.features, sel), l.features, ouvr.value.features, "inversion" in l.fields)
  }

  /** An endpoint's line is about the conduit and names a structure of the list. */
  lemma EndpointRefs(f: Feature, typC: string, oid: Option<string>, pos: string, ouvr: seq<Feature>, hasField: bool)
    ensures forall x :: x in EndpointFindings(f, typC, oid, pos, ouvr, hasField) ==> x.fid == f.fid && x.ref in FidsOf(ouvr)
  {
    if UsableEnd(oid) {
      var o := FirstWith(ouvr, "idouvrage", oid.value);
      if o.Some? {
        assert o.value.fid in FidsOf(ouvr);
      }
    }
  }

  /** The inversion lines of a conduit are about that conduit and name a structure. */
  lemma InversionRefs(f: Feature, ouvr: seq<Feature>, hasField: bool)
    ensures forall x :: x in InversionsOf(f, ouvr, hasField) ==> x.fid == f.fid && x.ref in FidsOf(ouvr)
  {
    var typC := Strip(Text(f, "typreseau"));
    EndpointRefs(f, typC, Attr(f, "idnini"), "amont", ouvr, hasField);
    EndpointRefs(f, typC, Attr(f, "idnterm"), "aval", ouvr, hasField);
  }

  /** A reduction line names its conduit twice. */
  lemma ReductionRefs(f: Feature, canal: seq<Feature>)
    ensures forall x :: x in Listed(ReductionOf(f, canal)) ==> x.fid == f.fid && x.ref == f.fid
  {
  }

  /** One more conduit appends its own lines to both lists. */
  lemma RunOverStep(sel: seq<Feature>, i: nat, canal: seq<Feature>, ouvr: seq<Feature>, hasField: bool)
    requires i < |sel|
    ensures var prev := RunOver(sel[..i], canal, ouvr, hasField); var red := ReductionOf(sel[i], canal);
      RunOver(sel[..i + 1], canal, ouvr, hasField) ==
        Report(prev.inversions + InversionsOf(sel[i], ouvr, hasField), prev.reductions + Listed(red))
  {
    assert sel[..i + 1][..i] == sel[..i];
  }

  /** Every line is about a conduit of the list; a reduction names its conduit twice. */
  lemma {:induction false} RunOverMembers(sel: seq<Feature>, canal: seq<Feature>, ouvr: seq<Feature>, hasField: bool)
    ensures var r := RunOver(sel, canal, ouvr, hasField);
      (forall x :: x in r.inversions ==> x.fid in FidsOf(sel) && x.ref in FidsOf(ouvr)) &&
      (forall x :: x in r.reductions ==> x.fid in FidsOf(sel) && x.ref == x.fid)
    decreases |sel|
  {
    if sel != [] {
      var init := sel[..|sel| - 1];
      var f := sel[|sel| - 1];
      var prev := RunOver(init, canal, ouvr, hasField);
      var red := ReductionOf(f, canal);
      RunOverMembers(init, canal, ouvr, hasField);
      assert FidsOf(init) <= FidsOf(sel) by {
        forall g | g in init ensures g in sel { }
      }
      InversionRefs(f, ouvr, hasField);
      ReductionRefs(f, canal);
      assert f.fid in FidsOf(sel) by { assert f in sel; }
      assert RunOver(sel, canal, ouvr, hasField) ==
        Report(prev.inversions + InversionsOf(f, ouvr, hasField), prev.reductions + Listed(red));
    }
  }

  /** Without both layers or without a selected conduit both lists are empty; otherwise every line is about a selected conduit. */
  lemma RunSpecSelected(canal: Option<LayerData>, sel: set<int>, ouvr: Option<LayerData>)
    ensures canal.None? || ouvr.None? || sel == {} ==> RunSpec(canal, sel, ouvr) == Report([], [])
    ensures var r := RunSpec(canal, sel, ouvr);
      (forall x :: x in r.inversions ==> x.fid in sel) && (forall x :: x in r.reductions ==> x.fid in sel && x.ref == x.fid)
  {
    if !(canal.None? || ouvr.None? || sel == {}) {
      var l := canal.value;
      var s := FeaturesWithFids(l.features, sel);
      RunOverMembers(s, l.features, ouvr.value.features, "inversion" in l.fields);
    }
  }

  class Diagnostics {
    const canal: VectorLayer?
    const ouvr: VectorLayer?

    constructor (canalLayer: VectorLayer?, ouvrLayer: VectorLayer?)
      ensures canal == canalLayer && ouvr == ouvrLayer
    {
      canal := canalLayer;
      ouvr := ouvrLayer;
    }

    /** The inversion checks at the two endpoints of one conduit. */
    static method CheckInversions(f: Feature, ouvr: seq<Feature>, hasField: bool) returns (r: seq<Finding>)
      ensures r == InversionsOf(f, ouvr, hasField)
    {
      var typC := Strip(Text(f, "typreseau"));
      var a := CheckEndpoint(f, typC, Attr(f, "idnini"), "amont", ouvr, hasField);
      var b := CheckEndpoint(f, typC, Attr(f, "idnterm"), "aval", ouvr, hasField);
      r := a + b;
    }

    /** One turn of the `for oid, pos in ...` loop. */
    static method CheckEndpoint(f: Feature, typC: string, oid: Option<string>, pos: string, ouvr: seq<Feature>, hasField: bool)
      returns (r: seq<Finding>)
      ensures r == EndpointFindings(f, typC, oid, pos, ouvr, hasField)
    {
      if !Truthy(oid) || oid.value == INCONNU {
        return [];
      }
      var o := FindFirstWith(ouvr, "idouvrage", oid.value);
      if o.None? {
        return [];
      }
      var typO := Strip(Text(o.value, "typreseau"));
      var direction := Direction(typC, typO);
      if direction.Some? {
        var status := Status(hasField, f);
        return [Finding(f.fid, InversionMsg(direction.value, pos, oid.value, status), o.value.fid)];
      }
      return [];
    }

    /** The loop over the conduits arriving at node: their positive diameters and their number. */
    static method ScanIncoming(fs: seq<Feature>, node: string) returns (diams: seq<int>, count: nat)
      ensures diams == DiamsInto(fs, node) && count == CountWith(fs, "idnterm", node)
    {
      diams, count := [], 0;
      var i := 0;
      while i < |fs|
        invariant 0 <= i <= |fs|
        invariant diams == DiamsInto(fs[..i], node) && count == CountWith(fs[..i], "idnterm", node)
      {
        assert fs[..i + 1][..i] == fs[..i];
        var g := fs[i];
        if Attr(g, "idnterm") == Some(node) {
          var d := ToInt(Attr(g, "diametre"));
          if d > 0 {
            diams := diams + [d];
          }
          count := count + 1;
        }
        i := i + 1;
      }
      assert fs[..i] == fs;
    }

    /** `sum(1 for _ in ...)` over the conduits leaving node. */
    static method CountOutgoing(fs: seq<Feature>, node: string) returns (count: nat)
      ensures count == CountWith(fs, "idnini", node)
    {
      count := 0;
      var i := 0;
      while i < |fs|
        invariant 0 <= i <= |fs|
        invariant count == CountWith(fs[..i], "idnini", node)
      {
        assert fs[..i + 1][..i] == fs[..i];
        if Attr(fs[i], "idnini") == Some(node) {
          count := count + 1;
        }
        i := i + 1;
      }
      assert fs[..i] == fs;
    }

    /** The reduction check of one conduit. */
    static method CheckReduction(f: Feature, canal: seq<Feature>) returns (r: Option<Finding>)
      ensures r == ReductionOf(f, canal)
    {
      var diamAval := ToInt(Attr(f, "diametre"));
      if diamAval <= 0 {
        return None;
      }
      var seuil := Threshold(Strip(Text(f, "typreseau")));
      var idnini := Attr(f, "idnini");
      if !(Truthy(idnini) && idnini.value != INCONNU) {
        return None;
      }
      var diamIn, inCount := ScanIncoming(canal, idnini.value);
      if inCount >= 1 {
        var outCount := CountOutgoing(canal, idnini.value);
        if outCount == 1 && diamIn != [] {
          var dmax := Max(diamIn);
          if dmax - diamAval > seuil {
            return Some(Finding(f.fid, ReductionMsg(dmax, diamAval, seuil, idnini.value), f.fid));
          }
        }
      }
      return None;
    }

    /** The body of the loop over the selected conduits: this conduit's lines appended to both lists. */
    static method CheckConduit(f: Feature, canal: seq<Feature>, ouvr: seq<Feature>, hasField: bool, r0: Report)
      returns (r: Report)
      ensures var red := ReductionOf(f, canal);
        r == Report(r0.inversions + InversionsOf(f, ouvr, hasField), r0.reductions + Listed(red))
    {
      var inv := CheckInversions(f, ouvr, hasField);
      var red := CheckReduction(f, canal);
      var reds := Listed(red);
      r := Report(r0.inversions + inv, r0.reductions + reds);
    }

    /** `for f in canal.getSelectedFeatures(): ...` */
    static method CheckAll(sel: seq<Feature>, canal: seq<Feature>, ouvr: seq<Feature>, hasField: bool) returns (r: Report)
      ensures r == RunOver(sel, canal, ouvr, hasField)
    {
      r := Report([], []);
      var i := 0;
      while i < |sel|
        invariant 0 <= i <= |sel|
        invariant r == RunOver(sel[..i], canal, ouvr, hasField)
      {
        RunOverStep(sel, i, canal, ouvr, hasField);
        r := CheckConduit(sel[i], canal, ouvr, hasField, r);
        i := i + 1;
      }
      assert sel[..i] == sel;
    }

    /**
     * `run_selected_only`: the selected conduits, in layer order, each checked
     * for inversions at both ends and then for a diameter reduction.
     */
    method RunSelectedOnly() returns (r: Report)
      ensures r == RunSpec(DataOf(canal), SelectionOf(canal), DataOf(ouvr))
    {
      if canal == null || ouvr == null {
        return Report([], []);
      }
      if canal.selected == {} {
        return Report([], []);
      }
      var hasField := "inversion" in canal.data.fields;
      var sel := canal.SelectedFeatures();
      r := CheckAll(sel, canal.data.features, ouvr.data.features, hasField);
    }
  }
}
