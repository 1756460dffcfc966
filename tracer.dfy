/**
 * The filtered network trace: a depth-first search over the canal and ditch
 * layers seen as one graph, following `idnini` -> `idnterm` downstream and
 * the reverse upstream, with optional category and function filters, and
 * statistics (total length, flow-type codes) about the edges it reports.
 */
module Tracer {
  import opened Common
  import opened Layers
  import opened Graph

  /** What the tracer is built with: the two layers, the filters, the field aliases. */
  datatype Settings = Settings(
    canal: Option<LayerData>,
    fosse: Option<LayerData>,
    filters: map<string, Option<string>>,
    alias: map<string, seq<string>>)

  /** The field names tried, in order, for each key. */
  const DefaultAlias: map<string, seq<string>> := map[
    "cat" := ["contcanass", "categorie", "cat_reseau"],
    "func" := ["fonccanass", "fonction", "function"],
    "type" := ["typreseau", "type_reseau"],
    "len" := ["l_longcana_reelle", "longueur", "length"]]

  /** The filters used when none (or an empty dictionary) is given. */
  const DefaultFilters: map<string, Option<string>> := map["category" := Some(""), "function" := Some("")]

  /** The default aliases, overridden by every non-empty alias list given. */
  function MergeAlias(fieldAlias: map<string, seq<string>>): (r: map<string, seq<string>>)
    ensures forall k :: k in fieldAlias && fieldAlias[k] != [] ==> k in r && r[k] == fieldAlias[k]
    ensures forall k :: k in DefaultAlias && (k !in fieldAlias || fieldAlias[k] == []) ==> k in r && r[k] == DefaultAlias[k]
    ensures forall k :: k in r ==> k in DefaultAlias || (k in fieldAlias && fieldAlias[k] != [])
  {
    DefaultAlias + map k | k in fieldAlias && fieldAlias[k] != [] :: fieldAlias[k]
  }

  function AliasFor(alias: map<string, seq<string>>, key: string): seq<string> {
    if key in alias then alias[key] else []
  }

  /** The first candidate that names a field of the layer. */
  function FirstAlias(wanted: seq<string>, names: set<string>): (r: Option<string>)
    ensures r.Some? ==> r.value in names && exists i :: 0 <= i < |wanted| && wanted[i] == r.value && forall j :: 0 <= j < i ==> wanted[j] !in names
    ensures r.None? ==> forall c :: c in wanted ==> c !in names
  {
    if wanted == [] then None
    else if wanted[0] in names then Some(wanted[0])
    else
      var r := FirstAlias(wanted[1..], names);
      assert forall c :: c in wanted ==> c == wanted[0] || c in wanted[1..];
      if r.Some? then
        var i :| 0 <= i < |wanted[1..]| && wanted[1..][i] == r.value && forall j :: 0 <= j < i ==> wanted[1..][j] !in names;
        assert wanted[i + 1] == r.value && forall j :: 0 <= j < i + 1 ==> wanted[j] !in names;
        r
      else r
  }

  /** `_resolve_field_name` without its cache. */
  function FieldName(alias: map<string, seq<string>>, l: LayerData, key: string): Option<string> {
    FirstAlias(AliasFor(alias, key), Elems(l.fields))
  }

  /** `_feat_val_by_key`: the value of the resolved field, None when unresolved, NULL or empty. */
  function FeatValue(alias: map<string, seq<string>>, l: LayerData, f: Feature, key: string): (r: Option<string>)
    ensures r.Some? ==> r.value != ""
  {
    var n := FieldName(alias, l, key);
    if n.None? || n.value == "" then None
    else
      var v := Attr(f, n.value);
      if v.None? || v.value == "" then None else v
  }

  /** `_len_of`: the length field when set and numeric, otherwise the geometric length. */
  function Length(alias: map<string, seq<string>>, l: LayerData, f: Feature): real {
    var n := FieldName(alias, l, "len");
    if n.Some? && n.value != "" && Truthy(Attr(f, n.value)) && ParseDecimal(Attr(f, n.value).value).Some? then
      ParseDecimal(Attr(f, n.value).value).value
    else f.geomLength as real
  }

  /** `(filters.get(k) or "").strip()`. */
  function FilterValue(filters: map<string, Option<string>>, k: string): string {
    Strip(AsStr(if k in filters then filters[k] else None))
  }

  /** An explicit mismatch: the filter is set, the edge has a value for its field, and they differ. */
  predicate Rejects(filters: map<string, Option<string>>, fkey: string, alias: map<string, seq<string>>, l: LayerData, f: Feature, akey: string) {
    var want := FilterValue(filters, fkey);
    var n := FieldName(alias, l, akey);
    want != "" && n.Some? && n.value != "" && Truthy(Attr(f, n.value)) && Attr(f, n.value).value != want
  }

  /**
   * `_pass_filters`: an empty filter accepts, a field the layer does not have
   * or an empty value accepts; only an explicit mismatch on the category or
   * the function rejects.
   */
  function Passes(s: Settings, l: LayerData, f: Feature): (r: bool)
    ensures FilterValue(s.filters, "category") == "" && FilterValue(s.filters, "function") == "" ==> r
    ensures FieldName(s.alias, l, "cat").None? && FieldName(s.alias, l, "func").None? ==> r
  {
    var fcat := FilterValue(s.filters, "category");
    var ffun := FilterValue(s.filters, "function");
    var cat := FeatValue(s.alias, l, f, "cat");
    var fun := FeatValue(s.alias, l, f, "func");
    !(fcat != "" && cat.Some? && cat.value != fcat) && !(ffun != "" && fun.Some? && fun.value != ffun)
  }

  lemma RejectsIff(s: Settings, l: LayerData, f: Feature, fkey: string, akey: string)
    ensures var want := FilterValue(s.filters, fkey); var v := FeatValue(s.alias, l, f, akey);
      Rejects(s.filters, fkey, s.alias, l, f, akey) <==> want != "" && v.Some? && v.value != want
  {
  }

  /** Only an explicit mismatch on the category or the function rejects an edge. */
  lemma PassesIff(s: Settings, l: LayerData, f: Feature)
    ensures !Passes(s, l, f) <==> Rejects(s.filters, "category", s.alias, l, f, "cat") || Rejects(s.filters, "function", s.alias, l, f, "func")
  {
    RejectsIff(s, l, f, "category", "cat");
    RejectsIff(s, l, f, "function", "func");
  }

  /** An edge met while tracing: its layer, tagged canal or ditch, the feature and the node it leads to. */
  datatype Step = Step(kind: Kind, layer: LayerData, feat: Feature, nxt: string)

  /** Downstream matches `idnini`, upstream matches `idnterm`. */
  function KeyField(down: bool): string { if down then "idnini" else "idnterm" }

  /** Downstream advances to `idnterm`, upstream to `idnini`. */
  function NextField(down: bool): string { if down then "idnterm" else "idnini" }

  /**
   * The node an edge of layer l leads to from node, when `_iter_edges_from_node`
   * yields it: its key field equals the node, neither endpoint is INCONNU, it
   * passes the filters, and its far endpoint is neither empty nor INCONNU.
   */
  function NextFrom(s: Settings, l: LayerData, f: Feature, node: string, down: bool): (r: Option<string>)
    ensures r.Some? ==> r.value != "" && r.value != INCONNU && r.value == Text(f, NextField(down))
    ensures r.Some? ==> Attr(f, KeyField(down)) == Some(node)
    ensures r.Some? ==> Text(f, "idnini") != INCONNU && Text(f, "idnterm") != INCONNU && Passes(s, l, f)
  {
    if Attr(f, KeyField(down)) != Some(node) then None
    else if Text(f, "idnini") == INCONNU || Text(f, "idnterm") == INCONNU then None
    else if !Passes(s, l, f) then None
    else
      var nxt := Text(f, NextField(down));
      if nxt != "" && nxt != INCONNU then Some(nxt) else None
  }

  /** No two steps carry the same edge of the same collection. */
  predicate DistinctTags(steps: seq<Step>) {
    forall i, j :: 0 <= i < j < |steps| ==> !(steps[i].kind == steps[j].kind && steps[i].feat.fid == steps[j].feat.fid)
  }

  /** For each feature, the node it leads to when it is yielded. */
  type NextOfFeat = Feature -> Option<string>

  /** The steps yielded by the features fs of layer l, in order. */
  function Collect(k: Kind, l: LayerData, fs: seq<Feature>, nf: NextOfFeat): seq<Step>
    decreases |fs|
  {
    if fs == [] then []
    else
      var f := fs[|fs| - 1];
      var rest := Collect(k, l, fs[..|fs| - 1], nf);
      if nf(f).Some? then rest + [Step(k, l, f, nf(f).value)] else rest
  }

  /** The collected steps are exactly the yielded features, and distinct when the fids are. */
  lemma {:induction false} CollectProps(k: Kind, l: LayerData, fs: seq<Feature>, nf: NextOfFeat)
    ensures forall e :: e in Collect(k, l, fs, nf) ==> e.kind == k && e.layer == l && e.feat in fs && nf(e.feat) == Some(e.nxt)
    ensures forall f :: f in fs && nf(f).Some? ==> Step(k, l, f, nf(f).value) in Collect(k, l, fs, nf)
    ensures UniqueFids(fs) ==> DistinctTags(Collect(k, l, fs, nf))
    decreases |fs|
  {
    if fs != [] {
      var init := fs[..|fs| - 1];
      var f := fs[|fs| - 1];
      CollectProps(k, l, init, nf);
      assert forall g :: g in fs <==> g in init || g == f;
      if UniqueFids(fs) {
        assert UniqueFids(init) by {
          forall i, j | 0 <= i < j < |init| ensures init[i].fid != init[j].fid {
            assert init[i] == fs[i] && init[j] == fs[j];
          }
        }
        forall g | g in init ensures g.fid != f.fid {
          var i :| 0 <= i < |init| && init[i] == g;
          assert fs[i] == g;
        }
      }
    }
  }

  lemma CollectSnoc(k: Kind, l: LayerData, fs: seq<Feature>, i: int, nf: NextOfFeat)
    requires 0 <= i < |fs|
    ensures Collect(k, l, fs[..i + 1], nf) ==
      Collect(k, l, fs[..i], nf) + (if nf(fs[i]).Some? then [Step(k, l, fs[i], nf(fs[i]).value)] else [])
  {
    assert fs[..i + 1][..i] == fs[..i];
  }

  function NextRule(s: Settings, l: LayerData, node: string, down: bool): NextOfFeat {
    f => NextFrom(s, l, f, node, down)
  }

  /** The steps yielded from node by the features fs of layer l, in order. */
  function StepsIn(s: Settings, k: Kind, l: LayerData, fs: seq<Feature>, node: string, down: bool): seq<Step> {
    Collect(k, l, fs, NextRule(s, l, node, down))
  }

  /** The step feature f of layer l yields from node, if any. */
  function StepOf(s: Settings, k: Kind, l: LayerData, f: Feature, node: string, down: bool): seq<Step> {
    var n := NextFrom(s, l, f, node, down);
    if n.Some? then [Step(k, l, f, n.value)] else []
  }

  lemma StepsInSnoc(s: Settings, k: Kind, l: LayerData, fs: seq<Feature>, i: int, node: string, down: bool)
    requires 0 <= i < |fs|
    ensures StepsIn(s, k, l, fs[..i + 1], node, down) == StepsIn(s, k, l, fs[..i], node, down) + StepOf(s, k, l, fs[i], node, down)
  {
    CollectSnoc(k, l, fs, i, NextRule(s, l, node, down));
  }

  /** The canal layer's steps, then the ditch layer's; none without a canal layer. */
  function StepsFrom(s: Settings, node: string, down: bool): (r: seq<Step>)
    ensures forall e :: e in r ==>
      NextFrom(s, e.layer, e.feat, node, down) == Some(e.nxt) &&
      (e.kind == Canal ==> s.canal.Some? && e.layer == s.canal.value) &&
      (e.kind == Fosse ==> s.fosse.Some? && e.layer == s.fosse.value) &&
      e.feat in e.layer.features
  {
    if s.canal.None? then []
    else
      var a := StepsIn(s, Canal, s.canal.value, s.canal.value.features, node, down);
      var b := if s.fosse.Some? then
        CollectProps(Fosse, s.fosse.value, s.fosse.value.features, NextRule(s, s.fosse.value, node, down));
        StepsIn(s, Fosse, s.fosse.value, s.fosse.value.features, node, down)
      else [];
      CollectProps(Canal, s.canal.value, s.canal.value.features, NextRule(s, s.canal.value, node, down));
      assert forall e :: e in a + b <==> e in a || e in b;
      a + b
  }

  /** Two step lists that share no edge of a collection join into one without repeated edges. */
  lemma DistinctJoin(a: seq<Step>, b: seq<Step>)
    requires DistinctTags(a) && DistinctTags(b)
    requires forall x, y :: x in a && y in b && x.kind == y.kind ==> x.feat.fid != y.feat.fid
    ensures DistinctTags(a + b)
  {
    var ab := a + b;
    forall i, j | 0 <= i < j < |ab| ensures !(ab[i].kind == ab[j].kind && ab[i].feat.fid == ab[j].feat.fid) {
      if j < |a| {
        assert ab[i] == a[i] && ab[j] == a[j];
      } else if i >= |a| {
        assert ab[i] == b[i - |a|] && ab[j] == b[j - |a|];
      } else {
        assert ab[i] in a && ab[j] in b;
      }
    }
  }

  lemma StepsFromDistinct(s: Settings, node: string, down: bool)
    ensures DistinctTags(StepsFrom(s, node, down))
  {
    if s.canal.Some? {
      var a := StepsIn(s, Canal, s.canal.value, s.canal.value.features, node, down);
      var b := if s.fosse.Some? then StepsIn(s, Fosse, s.fosse.value, s.fosse.value.features, node, down) else [];
      CollectProps(Canal, s.canal.value, s.canal.value.features, NextRule(s, s.canal.value, node, down));
      if s.fosse.Some? {
        CollectProps(Fosse, s.fosse.value, s.fosse.value.features, NextRule(s, s.fosse.value, node, down));
      }
      assert StepsFrom(s, node, down) == a + b;
      DistinctJoin(a, b);
    }
  }

  /** The successor relation the trace follows. */
  function TraceSucc(s: Settings, down: bool): Succ {
    n => set e | e in StepsFrom(s, n, down) :: e.nxt
  }

  /** Every node the trace can push: a far endpoint of some edge. */
  function Ends(s: Settings, down: bool): set<string> {
    (set f | s.canal.Some? && f in s.canal.value.features :: Text(f, NextField(down))) +
    (set f | s.fosse.Some? && f in s.fosse.value.features :: Text(f, NextField(down)))
  }

  function Universe(s: Settings, down: bool, start: string): set<string> {
    {start} + Ends(s, down)
  }

  lemma UniverseClosed(s: Settings, down: bool, start: string)
    ensures Closed(TraceSucc(s, down), Universe(s, down, start))
  {
    forall n, m | n in Universe(s, down, start) && m in TraceSucc(s, down)(n) ensures m in Universe(s, down, start) {
      var e :| e in StepsFrom(s, n, down) && e.nxt == m;
    }
  }

  /** The nodes a trace from start expands: those reachable through traced edges. */
  ghost function Reached(s: Settings, down: bool, start: string): (r: set<string>)
    ensures start in r && forall x :: x in r <==> Reaches(TraceSucc(s, down), start, x)
  {
    UniverseClosed(s, down, start);
    ReachSet(TraceSucc(s, down), start, Universe(s, down, start))
  }

  /** The steps met at the nodes of order, node after node. */
  function Concat(s: Settings, order: seq<string>, down: bool): seq<Step> {
    if order == [] then [] else Concat(s, order[..|order| - 1], down) + StepsFrom(s, order[|order| - 1], down)
  }

  lemma {:induction false} ConcatMember(s: Settings, order: seq<string>, down: bool, e: Step)
    ensures e in Concat(s, order, down) <==> exists n :: n in order && e in StepsFrom(s, n, down)
    decreases |order|
  {
    if order != [] {
      ConcatMember(s, order[..|order| - 1], down, e);
      assert forall n :: n in order <==> n in order[..|order| - 1] || n == order[|order| - 1];
    }
  }

  /** The ids of one collection's steps, in order. */
  function KindFids(steps: seq<Step>, k: Kind): seq<int>
    decreases |steps|
  {
    if steps == [] then []
    else
      var rest := KindFids(steps[..|steps| - 1], k);
      var e := steps[|steps| - 1];
      if e.kind == k then rest + [e.feat.fid] else rest
  }

  /** The ids listed are exactly the ids of the steps of that collection. */
  lemma {:induction false} KindFidsIn(steps: seq<Step>, k: Kind)
    ensures forall x :: x in KindFids(steps, k) <==> exists e :: e in steps && e.kind == k && e.feat.fid == x
    decreases |steps|
  {
    if steps != [] {
      KindFidsIn(steps[..|steps| - 1], k);
      assert forall g :: g in steps <==> g in steps[..|steps| - 1] || g == steps[|steps| - 1];
    }
  }

  lemma {:induction false} KindFidsAppend(a: seq<Step>, b: seq<Step>, k: Kind)
    ensures KindFids(a + b, k) == KindFids(a, k) + KindFids(b, k)
    decreases |b|
  {
    if b != [] {
      assert (a + b)[..|a + b| - 1] == a + b[..|b| - 1];
      KindFidsAppend(a, b[..|b| - 1], k);
    } else {
      assert a + b == a;
    }
  }

  lemma {:induction false} KindFidsNoDup(steps: seq<Step>, k: Kind)
    requires DistinctTags(steps)
    ensures NoDup(KindFids(steps, k))
    decreases |steps|
  {
    if steps != [] {
      var init := steps[..|steps| - 1];
      var e := steps[|steps| - 1];
      assert DistinctTags(init) by {
        forall i, j | 0 <= i < j < |init| ensures !(init[i].kind == init[j].kind && init[i].feat.fid == init[j].feat.fid) {
          assert init[i] == steps[i] && init[j] == steps[j];
        }
      }
      KindFidsNoDup(init, k);
      KindFidsIn(init, k);
      if e.kind == k {
        forall g | g in init && g.kind == k ensures g.feat.fid != e.feat.fid {
          var i :| 0 <= i < |init| && init[i] == g;
          assert steps[i] == g;
        }
        assert e.feat.fid !in KindFids(init, k);
      }
    }
  }

  /** The lengths of the steps, added up. */
  function SumLen(alias: map<string, seq<string>>, steps: seq<Step>): real
    decreases |steps|
  {
    if steps == [] then 0.0
    else SumLen(alias, steps[..|steps| - 1]) + Length(alias, steps[|steps| - 1].layer, steps[|steps| - 1].feat)
  }

  lemma {:induction false} SumLenAppend(alias: map<string, seq<string>>, a: seq<Step>, b: seq<Step>)
    ensures SumLen(alias, a + b) == SumLen(alias, a) + SumLen(alias, b)
    decreases |b|
  {
    if b != [] {
      assert (a + b)[..|a + b| - 1] == a + b[..|b| - 1];
      SumLenAppend(alias, a, b[..|b| - 1]);
    } else {
      assert a + b == a;
    }
  }

  /** The id lists, the length and the flow types of a prefix of the steps grow by those of the next step. */
  lemma StatsSnoc(alias: map<string, seq<string>>, steps: seq<Step>, j: nat)
    requires j < |steps|
    ensures KindFids(steps[..j + 1], Canal) == KindFids(steps[..j], Canal) + KindFids([steps[j]], Canal)
    ensures KindFids(steps[..j + 1], Fosse) == KindFids(steps[..j], Fosse) + KindFids([steps[j]], Fosse)
    ensures SumLen(alias, steps[..j + 1]) == SumLen(alias, steps[..j]) + Length(alias, steps[j].layer, steps[j].feat)
    ensures FluxTypes(alias, steps[..j + 1]) == FluxTypes(alias, steps[..j]) + FluxTypes(alias, [steps[j]])
    ensures steps[j] in steps && forall g :: g in steps[..j + 1] <==> g in steps[..j] || g == steps[j]
  {
    var e := steps[j];
    assert steps[..j + 1] == steps[..j] + [e];
    KindFidsAppend(steps[..j], [e], Canal);
    KindFidsAppend(steps[..j], [e], Fosse);
    SumLenAppend(alias, steps[..j], [e]);
    FluxTypesAppend(alias, steps[..j], [e]);
    assert SumLen(alias, [e]) == Length(alias, e.layer, e.feat) by {
      assert [e][..0] == [];
    }
  }

  /** Recording one more step appends its id to the list of its collection. */
  lemma IdsStep(steps: seq<Step>, j: nat, k: Kind, ids0: seq<int>, ids: seq<int>, ids': seq<int>)
    requires j < |steps| && ids == ids0 + KindFids(steps[..j], k)
    requires ids' == (if steps[j].kind == k then ids + [steps[j].feat.fid] else ids)
    ensures ids' == ids0 + KindFids(steps[..j + 1], k)
  {
    assert steps[..j + 1][..j] == steps[..j];
    if steps[j].kind == k {
      assert ids0 + KindFids(steps[..j], k) + [steps[j].feat.fid] == ids0 + (KindFids(steps[..j], k) + [steps[j].feat.fid]);
    }
  }

  /** Recording one more step pushes its far end when not visited. */
  lemma StackStep(steps: seq<Step>, j: nat, visited: set<string>, stack0: seq<string>, stack: seq<string>, stack': seq<string>)
    requires j < |steps| && steps[j].nxt != "" && steps[j].nxt != INCONNU
    requires forall m :: m in stack <==> m in stack0 || exists e :: e in steps[..j] && e.nxt == m && m !in visited
    requires stack' == if steps[j].nxt != "" && steps[j].nxt !in visited && steps[j].nxt != INCONNU then stack + [steps[j].nxt] else stack
    ensures forall m :: m in stack' <==> m in stack0 || exists e :: e in steps[..j + 1] && e.nxt == m && m !in visited
  {
    assert forall g :: g in steps[..j + 1] <==> g in steps[..j] || g == steps[j];
  }

  /** Recording one more step adds its length. */
  lemma LenStep(alias: map<string, seq<string>>, steps: seq<Step>, j: nat, t0: real, t: real, t': real)
    requires j < |steps| && t == t0 + SumLen(alias, steps[..j]) && t' == t + Length(alias, steps[j].layer, steps[j].feat)
    ensures t' == t0 + SumLen(alias, steps[..j + 1])
  {
    StatsSnoc(alias, steps, j);
  }

  /** Recording one more step adds its flow type. */
  lemma FluxStep(alias: map<string, seq<string>>, steps: seq<Step>, j: nat, f0: set<string>, f: set<string>, f': set<string>)
    requires j < |steps| && f == f0 + FluxTypes(alias, steps[..j]) && f' == f + FluxTypes(alias, [steps[j]])
    ensures f' == f0 + FluxTypes(alias, steps[..j + 1])
  {
    StatsSnoc(alias, steps, j);
  }

  /** The id lists and the flow types of a single step. */
  lemma StatsOne(alias: map<string, seq<string>>, e: Step)
    ensures KindFids([e], Canal) == (if e.kind == Canal then [e.feat.fid] else [])
    ensures KindFids([e], Fosse) == (if e.kind == Fosse then [e.feat.fid] else [])
    ensures FluxTypes(alias, [e]) == (if FeatValue(alias, e.layer, e.feat, "type").Some? then {FeatValue(alias, e.layer, e.feat, "type").value} else {})
  {
    assert [e][..0] == [];
    assert forall g :: g in [e] <==> g == e;
  }

  /** The flow-type codes read from the steps. */
  function FluxTypes(alias: map<string, seq<string>>, steps: seq<Step>): (r: set<string>)
    ensures forall t :: t in r ==> t != ""
  {
    set e | e in steps && FeatValue(alias, e.layer, e.feat, "type").Some? :: FeatValue(alias, e.layer, e.feat, "type").value
  }

  lemma FluxTypesAppend(alias: map<string, seq<string>>, a: seq<Step>, b: seq<Step>)
    ensures FluxTypes(alias, a + b) == FluxTypes(alias, a) + FluxTypes(alias, b)
  {
    assert forall e :: e in a + b <==> e in a || e in b;
  }

  /** A step from a node carries an edge of its layer keyed by that node. */
  lemma StepKey(s: Settings, n: string, down: bool, x: Step)
    requires x in StepsFrom(s, n, down)
    ensures Attr(x.feat, KeyField(down)) == Some(n) && x.feat in x.layer.features
    ensures x.kind == Canal ==> s.canal.Some? && x.layer == s.canal.value
    ensures x.kind == Fosse ==> s.fosse.Some? && x.layer == s.fosse.value
  {
    assert NextFrom(s, x.layer, x.feat, n, down) == Some(x.nxt);
  }

  /** Edges met at two different nodes are different edges. */
  lemma StepsApart(s: Settings, down: bool, n: string, m: string, x: Step, y: Step)
    requires n != m && x in StepsFrom(s, n, down) && y in StepsFrom(s, m, down) && x.kind == y.kind
    ensures x.feat.fid != y.feat.fid
  {
    StepKey(s, n, down, x);
    StepKey(s, m, down, y);
    assert y.layer == x.layer && x.feat != y.feat;
    DifferentFeatureFid(x.layer.features, x.feat, y.feat);
  }

  /** Expanding a node not expanded before keeps the reported edges distinct. */
  lemma ConcatDistinct(s: Settings, order: seq<string>, down: bool, cur: string)
    requires DistinctTags(Concat(s, order, down)) && cur !in order
    ensures DistinctTags(Concat(s, order + [cur], down))
  {
    var a := Concat(s, order, down);
    var b := StepsFrom(s, cur, down);
    assert (order + [cur])[..|order + [cur]| - 1] == order;
    StepsFromDistinct(s, cur, down);
    forall x, y | x in a && y in b && x.kind == y.kind ensures x.feat.fid != y.feat.fid {
      ConcatMember(s, order, down, x);
      var n :| n in order && x in StepsFrom(s, n, down);
      StepsApart(s, down, n, cur, x, y);
    }
    assert Concat(s, order + [cur], down) == a + b;
    DistinctJoin(a, b);
  }

  /**
   * Every id a trace reports is an edge of that collection met at a reached
   * node, and every such edge is reported.
   */
  lemma ReportedIds(s: Settings, order: seq<string>, down: bool, start: string, k: Kind, x: int)
    requires Elems(order) == Reached(s, down, start)
    ensures x in KindFids(Concat(s, order, down), k) <==>
      exists n, e :: n in Reached(s, down, start) && e in StepsFrom(s, n, down) && e.kind == k && e.feat.fid == x
  {
    var steps := Concat(s, order, down);
    KindFidsIn(steps, k);
    if x in KindFids(steps, k) {
      var e :| e in steps && e.kind == k && e.feat.fid == x;
      ConcatMember(s, order, down, e);
    }
    forall n, e | n in Reached(s, down, start) && e in StepsFrom(s, n, down) && e.kind == k && e.feat.fid == x
      ensures x in KindFids(steps, k)
    {
      assert n in order;
      ConcatMember(s, order, down, e);
    }
  }

  class NetworkTracer {
    const canalLayer: Option<LayerData>
    const fosseLayer: Option<LayerData>
    const filters: map<string, Option<string>>
    const alias: map<string, seq<string>>
    var fieldNameCache: map<string, map<string, Option<string>>>
    var totalLength: real
    var fluxTypes: set<string>

    function Config(): Settings {
      Settings(canalLayer, fosseLayer, filters, alias)
    }

    /** The cached answers for a layer are its resolved field names. */
    ghost predicate CacheSound(l: Option<LayerData>)
      reads this`fieldNameCache
    {
      l.Some? && l.value.id in fieldNameCache ==>
        forall key :: key in fieldNameCache[l.value.id] ==> fieldNameCache[l.value.id][key] == FieldName(alias, l.value, key)
    }

    /** The two layers have their own cache entries, and these are sound. */
    ghost predicate Valid()
      reads this`fieldNameCache
    {
      (canalLayer.Some? && fosseLayer.Some? ==> canalLayer.value.id != fosseLayer.value.id) &&
      CacheSound(canalLayer) && CacheSound(fosseLayer)
    }

    predicate Own(l: LayerData) {
      Some(l) == canalLayer || Some(l) == fosseLayer
    }

    /**
     * The tracer with its aliases (defaults overridden by the non-empty lists
     * given), its filters (the defaults when none or none set), an empty
     * cache and zero statistics.
     */
    constructor (canal: Option<LayerData>, fosse: Option<LayerData>, fieldAlias: map<string, seq<string>>, filters: Option<map<string, Option<string>>>)
      ensures canalLayer == canal && fosseLayer == fosse && alias == MergeAlias(fieldAlias)
      ensures this.filters == if filters.None? || filters.value == map[] then DefaultFilters else filters.value
      ensures fieldNameCache == map[] && totalLength == 0.0 && fluxTypes == {}
      ensures canal.Some? && fosse.Some? && canal.value.id != fosse.value.id ==> Valid()
      ensures canal.None? || fosse.None? ==> Valid()
    {
      canalLayer := canal;
      fosseLayer := fosse;
      this.filters := if filters.None? || filters.value == map[] then DefaultFilters else filters.value;
      alias := MergeAlias(fieldAlias);
      fieldNameCache := map[];
      totalLength := 0.0;
      fluxTypes := {};
    }

    /** The loop over the alias candidates. */
    static method FirstPresent(wanted: seq<string>, names: set<string>) returns (r: Option<string>)
      ensures r == FirstAlias(wanted, names)
    {
      var i := 0;
      while i < |wanted|
        invariant 0 <= i <= |wanted|
        invariant FirstAlias(wanted[i..], names) == FirstAlias(wanted, names)
      {
        if wanted[i] in names {
          return Some(wanted[i]);
        }
        assert wanted[i..][1..] == wanted[i + 1..];
        i := i + 1;
      }
      return None;
    }

    /**
     * `_resolve_field_name`: a cached answer is returned as is; otherwise the
     * first alias naming a field of the layer (or None) is cached and returned.
     */
    method ResolveFieldName(l: LayerData, key: string) returns (r: Option<string>)
      modifies this
      ensures l.id in old(fieldNameCache) && key in old(fieldNameCache)[l.id] ==>
        r == old(fieldNameCache)[l.id][key] && fieldNameCache == old(fieldNameCache)
      ensures !(l.id in old(fieldNameCache) && key in old(fieldNameCache)[l.id]) ==>
        r == FieldName(alias, l, key) &&
        fieldNameCache == old(fieldNameCache)[l.id := (if l.id in old(fieldNameCache) then old(fieldNameCache)[l.id] else map[])[key := r]]
      ensures totalLength == old(totalLength) && fluxTypes == old(fluxTypes)
      ensures old(Valid()) && Own(l) ==> Valid() && r == FieldName(alias, l, key)
    {
      var lid := l.id;
      if lid !in fieldNameCache {
        fieldNameCache := fieldNameCache[lid := map[]];
      }
      var cache := fieldNameCache[lid];
      if key in cache {
        return cache[key];
      }
      r := FirstPresent(AliasFor(alias, key), Elems(l.fields));
      fieldNameCache := fieldNameCache[lid := cache[key := r]];
    }

    /** `_feat_val_by_key`. */
    method FeatValByKey(l: LayerData, f: Feature, key: string) returns (r: Option<string>)
      requires Valid() && Own(l)
      modifies this
      ensures Valid() && r == FeatValue(alias, l, f, key)
      ensures totalLength == old(totalLength) && fluxTypes == old(fluxTypes)
    {
      var fname := ResolveFieldName(l, key);
      if fname.None? || fname.value == "" {
        return None;
      }
      var v := Attr(f, fname.value);
      if v.None? || v.value == "" {
        return None;
      }
      return v;
    }

    /** `_len_of`. */
    method LenOf(l: LayerData, f: Feature) returns (r: real)
      requires Valid() && Own(l)
      modifies this
      ensures Valid() && r == Length(alias, l, f)
      ensures totalLength == old(totalLength) && fluxTypes == old(fluxTypes)
    {
      var fname := ResolveFieldName(l, "len");
      if fname.Some? && fname.value != "" {
        var v := Attr(f, fname.value);
        if v.Some? && v.value != "" {
          var x := ParseDecimal(v.value);
          if x.Some? {
            return x.value;
          }
        }
      }
      return f.geomLength as real;
    }

    /** One test of `_pass_filters`: an edge passes unless its value for akey is set and differs from the filter. */
    method CheckFilter(l: LayerData, f: Feature, fkey: string, akey: string) returns (ok: bool)
      requires Valid() && Own(l)
      modifies this
      ensures Valid()
      ensures ok == !(FilterValue(filters, fkey) != "" && FeatValue(alias, l, f, akey).Some? && FeatValue(alias, l, f, akey).value != FilterValue(filters, fkey))
      ensures totalLength == old(totalLength) && fluxTypes == old(fluxTypes)
    {
      var want := FilterValue(filters, fkey);
      if want == "" {
        return true;
      }
      var v := FeatValByKey(l, f, akey);
      ok := !(v.Some? && v.value != want);
    }

    /** `_pass_filters`; the field lookups go through the cache. */
    method PassFilters(l: LayerData, f: Feature) returns (r: bool)
      requires Valid() && Own(l)
      modifies this
      ensures Valid() && r == Passes(Config(), l, f)
      ensures totalLength == old(totalLength) && fluxTypes == old(fluxTypes)
    {
      var okCat := CheckFilter(l, f, "category", "cat");
      if !okCat {
        return false;
      }
      r := CheckFilter(l, f, "function", "func");
    }

    /** The tests `_iter_edges_from_node` makes of one feature of layer l. */
    method EdgeNext(l: LayerData, f: Feature, node: string, down: bool) returns (r: Option<string>)
      requires Valid() && Own(l)
      modifies this
      ensures Valid() && r == NextFrom(Config(), l, f, node, down)
      ensures totalLength == old(totalLength) && fluxTypes == old(fluxTypes)
    {
      if Attr(f, KeyField(down)) != Some(node) {
        return None;
      }
      var idnini := Text(f, "idnini");
      var idnterm := Text(f, "idnterm");
      if idnini == INCONNU || idnterm == INCONNU {
        return None;
      }
      var pass := PassFilters(l, f);
      if !pass {
        return None;
      }
      var nxt := Text(f, NextField(down));
      if nxt != "" && nxt != INCONNU {
        return Some(nxt);
      }
      return None;
    }

    /** One turn of the loop over the layer's features. */
    method ScanOne(k: Kind, l: LayerData, fs: seq<Feature>, i: int, node: string, down: bool, acc0: seq<Step>) returns (acc: seq<Step>)
      requires Valid() && Own(l) && 0 <= i < |fs|
      modifies this
      ensures Valid()
      ensures acc == acc0 + StepOf(Config(), k, l, fs[i], node, down)
      ensures totalLength == old(totalLength) && fluxTypes == old(fluxTypes)
    {
      var n := EdgeNext(l, fs[i], node, down);
      acc := if n.Some? then acc0 + [Step(k, l, fs[i], n.value)] else acc0;
    }

    /** The loop over one layer's features matching the node. */
    method ScanLayer(k: Kind, l: LayerData, node: string, down: bool) returns (acc: seq<Step>)
      requires Valid() && Own(l)
      modifies this
      ensures Valid() && acc == StepsIn(Config(), k, l, l.features, node, down)
      ensures totalLength == old(totalLength) && fluxTypes == old(fluxTypes)
    {
      acc := [];
      var fs := l.features;
      var i := 0;
      while i < |fs|
        invariant 0 <= i <= |fs| && Valid()
        invariant acc == StepsIn(Config(), k, l, fs[..i], node, down)
        invariant totalLength == old(totalLength) && fluxTypes == old(fluxTypes)
      {
        acc := ScanOne(k, l, fs, i, node, down, acc);
        StepsInSnoc(Config(), k, l, fs, i, node, down);
        i := i + 1;
      }
      assert fs[..i] == fs;
    }

    /** `_iter_edges_from_node`: the canal layer's edges from the node, then the ditch layer's. */
    method IterEdgesFromNode(node: string, down: bool) returns (results: seq<Step>)
      requires Valid()
      modifies this
      ensures Valid() && results == StepsFrom(Config(), node, down)
      ensures totalLength == old(totalLength) && fluxTypes == old(fluxTypes)
    {
      if canalLayer.None? {
        return [];
      }
      var a := ScanLayer(Canal, canalLayer.value, node, down);
      var b := [];
      if fosseLayer.Some? {
        b := ScanLayer(Fosse, fosseLayer.value, node, down);
      }
      results := a + b;
    }

    /** The body of the inner loop of `trace` for one step. */
    method Record(e: Step, visited: set<string>, cids0: seq<int>, fids0: seq<int>, stack0: seq<string>)
      returns (cids: seq<int>, fids: seq<int>, stack: seq<string>)
      requires Valid() && Own(e.layer)
      modifies this
      ensures Valid()
      ensures cids == (if e.kind == Canal then cids0 + [e.feat.fid] else cids0)
      ensures fids == (if e.kind == Fosse then fids0 + [e.feat.fid] else fids0)
      ensures totalLength == old(totalLength) + Length(alias, e.layer, e.feat)
      ensures fluxTypes == old(fluxTypes) + FluxTypes(alias, [e])
      ensures stack == if e.nxt != "" && e.nxt !in visited && e.nxt != INCONNU then stack0 + [e.nxt] else stack0
    {
      cids, fids, stack := cids0, fids0, stack0;
      if e.kind == Canal {
        cids := cids + [e.feat.fid];
      } else {
        fids := fids + [e.feat.fid];
      }
      var len := LenOf(e.layer, e.feat);
      totalLength := totalLength + len;
      var t := FeatValByKey(e.layer, e.feat, "type");
      StatsOne(alias, e);
      if t.Some? {
        fluxTypes := fluxTypes + {t.value};
      }
      if e.nxt != "" && e.nxt !in visited && e.nxt != INCONNU {
        stack := stack + [e.nxt];
      }
    }

    /** The inner loop of `trace`: every step of the expanded node is recorded. */
    method RecordAll(steps: seq<Step>, visited: set<string>, cids0: seq<int>, fids0: seq<int>, stack0: seq<string>)
      returns (cids: seq<int>, fids: seq<int>, stack: seq<string>)
      requires Valid() && forall e :: e in steps ==> Own(e.layer) && e.nxt != "" && e.nxt != INCONNU
      modifies this
      ensures Valid()
      ensures cids == cids0 + KindFids(steps, Canal) && fids == fids0 + KindFids(steps, Fosse)
      ensures totalLength == old(totalLength) + SumLen(alias, steps)
      ensures fluxTypes == old(fluxTypes) + FluxTypes(alias, steps)
      ensures forall m :: m in stack <==> m in stack0 || exists e :: e in steps && e.nxt == m && m !in visited
    {
      cids, fids, stack := cids0, fids0, stack0;
      var j := 0;
      while j < |steps|
        invariant 0 <= j <= |steps| && Valid()
        invariant cids == cids0 + KindFids(steps[..j], Canal) && fids == fids0 + KindFids(steps[..j], Fosse)
        invariant totalLength == old(totalLength) + SumLen(alias, steps[..j])
        invariant fluxTypes == old(fluxTypes) + FluxTypes(alias, steps[..j])
        invariant forall m :: m in stack <==> m in stack0 || exists e :: e in steps[..j] && e.nxt == m && m !in visited
      {
        var e := steps[j];
        assert e in steps;
        ghost var c, f, st, len, fl := cids, fids, stack, totalLength, fluxTypes;
        cids, fids, stack := Record(e, visited, cids, fids, stack);
        IdsStep(steps, j, Canal, cids0, c, cids);
        IdsStep(steps, j, Fosse, fids0, f, fids);
        StackStep(steps, j, visited, stack0, st, stack);
        LenStep(alias, steps, j, old(totalLength), len, totalLength);
        FluxStep(alias, steps, j, old(fluxTypes), fl, fluxTypes);
        j := j + 1;
      }
      assert steps[..j] == steps;
    }

    /** The statistics and id lists of a trace that has expanded the nodes of order. */
    ghost predicate Stats(order: seq<string>, down: bool, cids: seq<int>, fids: seq<int>)
      reads this
    {
      var steps := Concat(Config(), order, down);
      cids == KindFids(steps, Canal) && fids == KindFids(steps, Fosse) &&
      totalLength == SumLen(alias, steps) && fluxTypes == FluxTypes(alias, steps) &&
      DistinctTags(steps)
    }

    /** One expansion of `trace`: the node's edges are recorded and their unvisited far endpoints pushed. */
    method ExpandNode(cur: string, down: bool, visited: set<string>, ghost order: seq<string>,
                      cids0: seq<int>, fids0: seq<int>, stack0: seq<string>)
      returns (cids: seq<int>, fids: seq<int>, stack: seq<string>)
      requires Valid() && Stats(order, down, cids0, fids0) && cur !in order
      modifies this
      ensures Valid() && Stats(order + [cur], down, cids, fids)
      ensures forall m :: m in stack <==> m in stack0 || (m in TraceSucc(Config(), down)(cur) && m !in visited)
    {
      ghost var s := Config();
      ghost var prev := Concat(s, order, down);
      ConcatDistinct(s, order, down, cur);
      var steps := IterEdgesFromNode(cur, down);
      assert (order + [cur])[..|order + [cur]| - 1] == order;
      assert Concat(s, order + [cur], down) == prev + steps;
      KindFidsAppend(prev, steps, Canal);
      KindFidsAppend(prev, steps, Fosse);
      SumLenAppend(alias, prev, steps);
      FluxTypesAppend(alias, prev, steps);
      cids, fids, stack := RecordAll(steps, visited, cids0, fids0, stack0);
    }

    /**
     * `trace`: the statistics are reset, then every node reachable from the
     * start through traced edges is expanded once; the ids of the edges met
     * there are reported once per collection, the total length is the sum of
     * their lengths and the flow types are the codes they carry.
     */
    method Trace(startId: string, downstream: bool) returns (canalIds: seq<int>, fosseIds: seq<int>, ghost order: seq<string>)
      requires Valid()
      modifies this
      ensures Valid()
      ensures NoDup(order) && Elems(order) == Reached(Config(), downstream, startId)
      ensures canalIds == KindFids(Concat(Config(), order, downstream), Canal)
      ensures fosseIds == KindFids(Concat(Config(), order, downstream), Fosse)
      ensures totalLength == SumLen(alias, Concat(Config(), order, downstream))
      ensures fluxTypes == FluxTypes(alias, Concat(Config(), order, downstream))
      ensures NoDup(canalIds) && NoDup(fosseIds)
    {
      ghost var S := TraceSucc(Config(), downstream);
      ghost var U := Universe(Config(), downstream, startId);
      UniverseClosed(Config(), downstream, startId);
      totalLength := 0.0;
      fluxTypes := {};
      var visited: set<string> := {};
      canalIds, fosseIds := [], [];
      order := [];
      var stack := [startId];
      FrontierStart(S, startId, U);
      while stack != []
        invariant Valid() && visited == Elems(order) && NoDup(order)
        invariant Frontier(S, startId, U, visited, stack)
        invariant Stats(order, downstream, canalIds, fosseIds)
        decreases U - visited, |stack|
      {
        var cur := stack[|stack| - 1];
        ghost var popped := stack;
        stack := stack[..|stack| - 1];
        if cur in visited {
          FrontierSkip(S, startId, U, visited, popped);
          continue;
        }
        ghost var visited0 := visited;
        ghost var order0 := order;
        NoDupSnoc(order, cur);
        visited := visited + {cur};
        order := order + [cur];
        canalIds, fosseIds, stack := ExpandNode(cur, downstream, visited, order0, canalIds, fosseIds, stack);
        FrontierExpand(S, startId, U, visited0, popped, stack);
      }
      FrontierDone(S, startId, U, visited);
      KindFidsNoDup(Concat(Config(), order, downstream), Canal);
      KindFidsNoDup(Concat(Config(), order, downstream), Fosse);
    }
  }
}
