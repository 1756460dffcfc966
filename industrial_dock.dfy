/**
 * The table of connected industrials: rows by industrial id, the ordered
 * list of fields, the two field lists (fields searched by the filter and the
 * other available fields), the comma-separated text filter, and the
 * exclusion of ids after a visit.
 */
module IndustrialTable {
  import opened Common
  import opened Ordering

  type Row = map<string, string>
  type Table = map<string, Row>

  /** The columns shown first, in this order, when present. */
  const Preferred: seq<string> := ["id", "Nom", "Activite", "Produits", "Risques", "Adresse"]

  /** The fields searched by default. */
  const DefaultFilter: seq<string> := ["Nom", "Activite", "Produits", "Risques", "Adresse"]

  /** Every field name used by some row. */
  function FieldsOf(t: Table): set<string> {
    set id, f | id in t && f in t[id] :: f
  }

  /** `[f for f in s if f in xs]`. */
  function KeepIn(s: seq<string>, xs: set<string>): (r: seq<string>)
    ensures forall x :: x in r <==> x in s && x in xs
    ensures NoDup(s) ==> NoDup(r)
  {
    if s == [] then []
    else
      var rest := KeepIn(s[1..], xs);
      assert forall x :: x in s <==> x == s[0] || x in s[1..];
      if s[0] in xs then [s[0]] + rest else rest
  }

  /** `[f for f in s if f not in xs]`. */
  function KeepOut(s: seq<string>, xs: set<string>): (r: seq<string>)
    ensures forall x :: x in r <==> x in s && x !in xs
    ensures NoDup(s) ==> NoDup(r)
  {
    if s == [] then []
    else
      var rest := KeepOut(s[1..], xs);
      assert forall x :: x in s <==> x == s[0] || x in s[1..];
      if s[0] !in xs then [s[0]] + rest else rest
  }

  /**
   * The column order of `set_data`: the preferred fields that are present, in
   * the preferred order, then the other fields sorted; each field once.
   */
  method FieldOrder(fields: set<string>) returns (r: seq<string>)
    ensures NoDup(r) && forall x :: x in r <==> x in fields
    ensures |KeepIn(Preferred, fields)| <= |r| && r[..|KeepIn(Preferred, fields)|] == KeepIn(Preferred, fields)
    ensures Sorted(r[|KeepIn(Preferred, fields)|..])
  {
    var ordered := KeepIn(Preferred, fields);
    assert NoDup(Preferred);
    var remaining := SortedList(fields - Elems(ordered));
    r := ordered + remaining;
    assert r[|ordered|..] == remaining;
    forall i, j | 0 <= i < j < |r| ensures r[i] != r[j] {
      if i < |ordered| && j >= |ordered| {
        assert r[i] in ordered && r[j] in remaining;
      }
    }
  }

  /** The filter's tokens: `[t.strip() for t in text.split(",") if t.strip()]`. */
  function Tokens(pieces: seq<string>): (r: seq<string>)
    ensures forall t :: t in r ==> t != ""
  {
    if pieces == [] then []
    else if Strip(pieces[0]) != "" then [Strip(pieces[0])] + Tokens(pieces[1..])
    else Tokens(pieces[1..])
  }

  lemma {:induction false} TokensEmpty(pieces: seq<string>)
    ensures Tokens(pieces) == [] <==> forall i :: 0 <= i < |pieces| ==> Strip(pieces[i]) == ""
    decreases |pieces|
  {
    if pieces != [] {
      TokensEmpty(pieces[1..]);
      assert forall i :: 1 <= i < |pieces| ==> pieces[i] == pieces[1..][i - 1];
    }
  }

  predicate BlankOrComma(c: char) { IsSpace(c) || c == ',' }

  predicate AllSpace(s: string) { forall i :: 0 <= i < |s| ==> IsSpace(s[i]) }

  predicate BlankText(s: string) { forall i :: 0 <= i < |s| ==> BlankOrComma(s[i]) }

  predicate AllBlank(pieces: seq<string>) { forall k :: 0 <= k < |pieces| ==> AllSpace(pieces[k]) }

  /** A text cut at a comma is blank exactly when both sides are. */
  lemma BlankTextCut(s: string, k: nat)
    requires k < |s| && s[k] == ','
    ensures BlankText(s) <==> BlankText(s[..k]) && BlankText(s[k + 1..])
  {
    var head, rest := s[..k], s[k + 1..];
    if BlankText(head) && BlankText(rest) {
      forall i | 0 <= i < |s| ensures BlankOrComma(s[i]) {
        if i < k { assert s[i] == head[i]; }
        else if i > k { assert s[i] == rest[i - k - 1]; }
      }
    }
    if BlankText(s) {
      assert forall i :: 0 <= i < |head| ==> head[i] == s[i];
      assert forall i :: 0 <= i < |rest| ==> rest[i] == s[k + 1 + i];
    }
  }

  /** Without a comma, blank text is white space only. */
  lemma BlankTextNoComma(s: string)
    requires ',' !in s
    ensures BlankText(s) <==> AllSpace(s)
  {
    forall i | 0 <= i < |s| ensures BlankOrComma(s[i]) <==> IsSpace(s[i]) {
      assert s[i] in s;
    }
  }

  /** The pieces are all blank exactly when the first one and the rest are. */
  lemma AllBlankCons(head: string, tail: seq<string>)
    ensures AllBlank([head] + tail) <==> AllSpace(head) && AllBlank(tail)
  {
    var pieces := [head] + tail;
    if AllSpace(head) && AllBlank(tail) {
      forall j | 0 <= j < |pieces| ensures AllSpace(pieces[j]) {
        if j > 0 { assert pieces[j] == tail[j - 1]; }
      }
    }
    if AllBlank(pieces) {
      assert pieces[0] == head;
      forall j | 0 <= j < |tail| ensures AllSpace(tail[j]) {
        assert tail[j] == pieces[j + 1];
      }
    }
  }

  /** A text is blanks and commas only iff every comma-separated piece is blank. */
  lemma {:induction false} SplitBlank(s: string)
    ensures BlankText(s) <==> AllBlank(Split(s, ','))
    decreases |s|
  {
    var pieces := Split(s, ',');
    if ',' in s {
      var k := IndexOf(s, ',');
      var head, rest := s[..k], s[k + 1..];
      SplitBlank(rest);
      assert pieces == [head] + Split(rest, ',');
      assert ',' !in head;
      BlankTextCut(s, k);
      BlankTextNoComma(head);
      AllBlankCons(head, Split(rest, ','));
    } else {
      assert pieces == [s] + [];
      BlankTextNoComma(s);
      AllBlankCons(s, []);
    }
  }

  /**
   * A filter text yields no token exactly when it is made of blanks and
   * commas only (the empty text included).
   */
  lemma NoTokensIff(text: string)
    ensures Tokens(Split(text, ',')) == [] <==> BlankText(text)
  {
    var pieces := Split(text, ',');
    TokensEmpty(pieces);
    SplitBlank(text);
    forall k | 0 <= k < |pieces| ensures Strip(pieces[k]) == "" <==> AllSpace(pieces[k]) {
      StripEmpty(pieces[k]);
    }
  }

  /** The tokens of a filter text, after stripping it. */
  function FilterTokens(text: string): seq<string> {
    Tokens(Split(Strip(text), ','))
  }

  /**
   * The rows shown for a filter text: all of them when the stripped text is
   * empty or has no token, otherwise those matching a token in the searched
   * fields (the filter list, or every field when it is empty).
   */
  function FilterView(raw: Table, text: string, filterFields: seq<string>, allFields: seq<string>): (r: Table)
    ensures forall id :: id in r ==> id in raw && r[id] == raw[id]
  {
    var t := Strip(text);
    if t == "" then raw
    else
      var tokens := Tokens(Split(t, ','));
      if tokens == [] then raw
      else Filtered(raw, tokens, if filterFields == [] then allFields else filterFields)
  }

  /** `str(row.get(field, "") or "")`. */
  function Get(row: Row, field: string): string {
    if field in row then row[field] else ""
  }

  /** The inner loop of `row_match`: does tok occur in some field's value, case-insensitively? */
  function AnyField(row: Row, tok: string, fields: seq<string>): bool {
    fields != [] && (IsSubstring(tok, Lower(Get(row, fields[0]))) || AnyField(row, tok, fields[1..]))
  }

  /** `row_match`: the loops over tokens and fields, returning at the first hit. */
  function RowMatch(row: Row, tokens: seq<string>, fields: seq<string>): bool {
    tokens != [] && (AnyField(row, Lower(tokens[0]), fields) || RowMatch(row, tokens[1..], fields))
  }

  lemma {:induction false} AnyFieldIff(row: Row, tok: string, fields: seq<string>)
    ensures AnyField(row, tok, fields) <==> exists f :: f in fields && IsSubstring(tok, Lower(Get(row, f)))
    decreases |fields|
  {
    if fields != [] {
      AnyFieldIff(row, tok, fields[1..]);
      assert forall f :: f in fields <==> f == fields[0] || f in fields[1..];
    }
  }

  /** A row matches iff some token occurs, case-insensitively, in some searched field's value. */
  lemma {:induction false} RowMatchIff(row: Row, tokens: seq<string>, fields: seq<string>)
    ensures RowMatch(row, tokens, fields) <==>
      exists t, f :: t in tokens && f in fields && IsSubstring(Lower(t), Lower(Get(row, f)))
    decreases |tokens|
  {
    if tokens != [] {
      AnyFieldIff(row, Lower(tokens[0]), fields);
      RowMatchIff(row, tokens[1..], fields);
      assert forall t :: t in tokens <==> t == tokens[0] || t in tokens[1..];
    }
  }

  /** The rows the filter keeps: all of them without a token, the matching ones otherwise. */
  function Filtered(raw: Table, tokens: seq<string>, fields: seq<string>): (r: Table)
    ensures forall id :: id in r ==> id in raw && r[id] == raw[id]
    ensures tokens != [] ==> forall id :: id in raw ==> (id in r <==> RowMatch(raw[id], tokens, fields))
  {
    if tokens == [] then raw
    else map id | id in raw && RowMatch(raw[id], tokens, fields) :: raw[id]
  }

  /** A filter text of blanks and commas only shows every row. */
  lemma FilterViewBlank(raw: Table, text: string, filterFields: seq<string>, allFields: seq<string>)
    requires BlankText(text)
    ensures FilterView(raw, text, filterFields, allFields) == raw
  {
    var t := Strip(text);
    assert forall i :: 0 <= i < |t| ==> t[i] == text[LeadLen(PyBlanks, text) + i];
    NoTokensIff(t);
  }

  /**
   * A row is shown iff the text has no token, or some token occurs,
   * case-insensitively, in the value of some searched field.
   */
  lemma FilterViewIff(raw: Table, text: string, filterFields: seq<string>, allFields: seq<string>, id: string)
    requires id in raw
    ensures id in FilterView(raw, text, filterFields, allFields) <==>
      FilterTokens(text) == [] ||
      exists t, f :: t in FilterTokens(text) && f in (if filterFields == [] then allFields else filterFields) &&
        IsSubstring(Lower(t), Lower(Get(raw[id], f)))
  {
    var fields := if filterFields == [] then allFields else filterFields;
    if Strip(text) == "" {
      assert Split("", ',') == [""];
      assert Strip("") == "";
      assert Tokens([""]) == [];
    } else if FilterTokens(text) != [] {
      assert FilterView(raw, text, filterFields, allFields) == Filtered(raw, FilterTokens(text), fields);
    }
    RowMatchIff(raw[id], FilterTokens(text), fields);
  }

  /** `{k: v for k, v in t.items() if str(k) not in ids}`. */
  function Without(t: Table, ids: set<string>): (r: Table)
    ensures r.Keys == t.Keys - ids && forall k :: k in r ==> r[k] == t[k]
  {
    map k | k in t && k !in ids :: t[k]
  }

  /** `[s[i] for i in range(len(s)) if i not in rows]`: the list after `takeItem` of the given rows. */
  function RemoveRows(s: seq<string>, rows: set<int>): (r: seq<string>)
    ensures forall x :: x in r <==> exists i :: 0 <= i < |s| && i !in rows && s[i] == x
    ensures NoDup(s) ==> NoDup(r)
    decreases |s|
  {
    if s == [] then []
    else
      var rest := RemoveRows(s[..|s| - 1], rows);
      assert forall i :: 0 <= i < |s| - 1 ==> s[..|s| - 1][i] == s[i];
      var last := s[|s| - 1];
      assert NoDup(s) ==> last !in rest by {
        if NoDup(s) {
          forall i | 0 <= i < |s| - 1 ensures s[i] != last {}
        }
      }
      if |s| - 1 in rows then rest else rest + [last]
  }

  /** The list after adding each text not already present, in order. */
  function AppendMissing(dest: seq<string>, texts: seq<string>): (r: seq<string>)
    ensures forall x :: x in r <==> x in dest || x in texts
    ensures |dest| <= |r| && r[..|dest|] == dest
    ensures NoDup(dest) ==> NoDup(r)
    decreases |texts|
  {
    if texts == [] then dest
    else
      var d := AppendMissing(dest, texts[..|texts| - 1]);
      var t := texts[|texts| - 1];
      assert forall x :: x in texts <==> x in texts[..|texts| - 1] || x == t;
      if t in d then d else d + [t]
  }

  /** The texts of the selected rows of a list. */
  function Picked(s: seq<string>, rows: seq<int>): (r: seq<string>)
    requires forall k :: 0 <= k < |rows| ==> 0 <= rows[k] < |s|
    ensures |r| == |rows| && forall k :: 0 <= k < |rows| ==> r[k] == s[rows[k]]
  {
    seq(|rows|, k requires 0 <= k < |rows| => s[rows[k]])
  }

  class IndustrialDock {
    var raw: Table
    var visible: Table
    var allFields: seq<string>
    var filterFields: seq<string>
    var availableFields: seq<string>
    var searchText: string

    /** Every field is listed once, in exactly one of the two field lists. */
    ghost predicate Valid()
      reads this
    {
      NoDup(filterFields) && NoDup(availableFields) &&
      (forall x :: x in filterFields || x in availableFields <==> x in allFields) &&
      (forall x :: x in filterFields ==> x !in availableFields)
    }

    constructor ()
      ensures raw == map[] && visible == map[] && allFields == [] && filterFields == [] && availableFields == []
      ensures searchText == ""
      ensures Valid()
    {
      raw, visible, allFields, filterFields, availableFields, searchText := map[], map[], [], [], [], "";
    }

    /** The default split of the fields between the two lists. */
    static method DefaultLists(fields: seq<string>) returns (filter: seq<string>, available: seq<string>)
      ensures filter == KeepIn(fields, Elems(DefaultFilter)) && available == KeepOut(fields, Elems(DefaultFilter))
    {
      filter, available := [], [];
      var i := 0;
      while i < |fields|
        invariant 0 <= i <= |fields|
        invariant filter == KeepIn(fields[..i], Elems(DefaultFilter)) && available == KeepOut(fields[..i], Elems(DefaultFilter))
      {
        KeepSnoc(fields[..i], fields[i], Elems(DefaultFilter));
        assert fields[..i + 1] == fields[..i] + [fields[i]];
        if fields[i] in DefaultFilter {
          filter := filter + [fields[i]];
        } else {
          available := available + [fields[i]];
        }
        i := i + 1;
      }
      assert fields[..i] == fields;
    }

    static lemma KeepSnoc(s: seq<string>, x: string, xs: set<string>)
      ensures KeepIn(s + [x], xs) == KeepIn(s, xs) + (if x in xs then [x] else [])
      ensures KeepOut(s + [x], xs) == KeepOut(s, xs) + (if x !in xs then [x] else [])
    {
      KeepInSnoc(s, x, xs);
      KeepOutSnoc(s, x, xs);
    }

    static lemma {:induction false} KeepInSnoc(s: seq<string>, x: string, xs: set<string>)
      ensures KeepIn(s + [x], xs) == KeepIn(s, xs) + (if x in xs then [x] else [])
      decreases |s|
    {
      if s != [] {
        assert (s + [x])[1..] == s[1..] + [x] && (s + [x])[0] == s[0];
        KeepInSnoc(s[1..], x, xs);
        var tail := if x in xs then [x] else [];
        assert [s[0]] + (KeepIn(s[1..], xs) + tail) == [s[0]] + KeepIn(s[1..], xs) + tail;
      } else {
        assert [] + [x] == [x] && [x][1..] == [];
      }
    }

    static lemma {:induction false} KeepOutSnoc(s: seq<string>, x: string, xs: set<string>)
      ensures KeepOut(s + [x], xs) == KeepOut(s, xs) + (if x !in xs then [x] else [])
      decreases |s|
    {
      if s != [] {
        assert (s + [x])[1..] == s[1..] + [x] && (s + [x])[0] == s[0];
        KeepOutSnoc(s[1..], x, xs);
        var tail := if x !in xs then [x] else [];
        assert [s[0]] + (KeepOut(s[1..], xs) + tail) == [s[0]] + KeepOut(s[1..], xs) + tail;
      } else {
        assert [] + [x] == [x] && [x][1..] == [];
      }
    }

    /**
     * `set_data`: the rows become the table (NULL data reads as no data), all
     * rows visible, the fields ordered and split between the two lists.
     */
    method SetData(data: Option<Table>)
      modifies this
      ensures raw == (if data.None? then map[] else data.value) && visible == raw
      ensures NoDup(allFields) && forall x :: x in allFields <==> x in FieldsOf(raw)
      ensures |KeepIn(Preferred, FieldsOf(raw))| <= |allFields|
      ensures allFields[..|KeepIn(Preferred, FieldsOf(raw))|] == KeepIn(Preferred, FieldsOf(raw))
      ensures Sorted(allFields[|KeepIn(Preferred, FieldsOf(raw))|..])
      ensures filterFields == KeepIn(allFields, Elems(DefaultFilter)) && availableFields == KeepOut(allFields, Elems(DefaultFilter))
      ensures searchText == old(searchText)
      ensures Valid()
    {
      raw := if data.None? then map[] else data.value;
      visible := raw;
      allFields := FieldOrder(FieldsOf(raw));
      // With no field the lists are cleared, which is also what this split gives.
      filterFields, availableFields := DefaultLists(allFields);
    }

    /**
     * `_apply_filter`: without rows nothing changes; otherwise the visible
     * rows become the filter's view of the rows for the current text.
     */
    method ApplyFilter()
      modifies this
      ensures raw == old(raw) && allFields == old(allFields) && searchText == old(searchText)
      ensures filterFields == old(filterFields) && availableFields == old(availableFields)
      ensures raw == map[] ==> visible == old(visible)
      ensures raw != map[] ==> visible == FilterView(raw, searchText, filterFields, allFields)
    {
      if raw == map[] {
        return;
      }
      visible := FilterView(raw, searchText, filterFields, allFields);
    }

    /** `exclude_ids`: with ids, their rows leave both the table and the visible rows. */
    method ExcludeIds(ids: seq<string>)
      modifies this
      ensures ids == [] ==> raw == old(raw) && visible == old(visible)
      ensures ids != [] ==> raw == Without(old(raw), Elems(ids)) && visible == Without(old(visible), Elems(ids))
      ensures allFields == old(allFields) && filterFields == old(filterFields) && availableFields == old(availableFields)
      ensures searchText == old(searchText)
      ensures Valid() <==> old(Valid())
    {
      if ids == [] {
        return;
      }
      var sids := Elems(ids);
      raw := Without(raw, sids);
      visible := Without(visible, sids);
    }

    /** `_reset_filter`: empty text, default field lists, every row visible. */
    method ResetFilter()
      modifies this
      ensures searchText == "" && visible == raw && raw == old(raw) && allFields == old(allFields)
      ensures filterFields == KeepIn(allFields, Elems(DefaultFilter)) && availableFields == KeepOut(allFields, Elems(DefaultFilter))
      ensures NoDup(allFields) ==> Valid()
    {
      searchText := "";
      filterFields, availableFields := DefaultLists(allFields);
      visible := raw;
    }

    /**
     * `_move_selected_to_filter` for the selected rows of the available list:
     * their texts join the filter list unless already there, and the rows leave
     * the available list.
     */
    method MoveSelectedToFilter(rows: seq<int>)
      requires forall k :: 0 <= k < |rows| ==> 0 <= rows[k] < |availableFields|
      requires Valid()
      modifies this
      ensures rows == [] ==> filterFields == old(filterFields) && availableFields == old(availableFields)
      ensures rows != [] ==>
        filterFields == AppendMissing(old(filterFields), Picked(old(availableFields), rows)) &&
        availableFields == RemoveRows(old(availableFields), Elems(rows))
      ensures raw == old(raw) && visible == old(visible) && allFields == old(allFields) && searchText == old(searchText)
      ensures Valid()
    {
      if rows == [] {
        return;
      }
      var texts := Picked(availableFields, rows);
      var dest := AddMissing(filterFields, texts);
      MoveKeepsPartition(filterFields, availableFields, allFields, rows, texts);
      filterFields := dest;
      availableFields := RemoveRows(availableFields, Elems(rows));
    }

    /** `_move_selected_to_available`: the same move in the other direction. */
    method MoveSelectedToAvailable(rows: seq<int>)
      requires forall k :: 0 <= k < |rows| ==> 0 <= rows[k] < |filterFields|
      requires Valid()
      modifies this
      ensures rows == [] ==> filterFields == old(filterFields) && availableFields == old(availableFields)
      ensures rows != [] ==>
        availableFields == AppendMissing(old(availableFields), Picked(old(filterFields), rows)) &&
        filterFields == RemoveRows(old(filterFields), Elems(rows))
      ensures raw == old(raw) && visible == old(visible) && allFields == old(allFields) && searchText == old(searchText)
      ensures Valid()
    {
      if rows == [] {
        return;
      }
      var texts := Picked(filterFields, rows);
      var dest := AddMissing(availableFields, texts);
      MoveKeepsPartition(availableFields, filterFields, allFields, rows, texts);
      availableFields := dest;
      filterFields := RemoveRows(filterFields, Elems(rows));
    }

    /** The loop of both moves: each text joins the destination unless already there. */
    static method AddMissing(dest0: seq<string>, texts: seq<string>) returns (dest: seq<string>)
      ensures dest == AppendMissing(dest0, texts)
    {
      dest := dest0;
      var i := 0;
      while i < |texts|
        invariant 0 <= i <= |texts|
        invariant dest == AppendMissing(dest0, texts[..i])
      {
        assert texts[..i + 1][..i] == texts[..i];
        if !(texts[i] in dest) {
          dest := dest + [texts[i]];
        }
        i := i + 1;
      }
      assert texts[..i] == texts;
    }

    /** Moving selected rows from src to dest keeps both lists duplicate-free and disjoint, over the same fields. */
    static lemma MoveKeepsPartition(dest: seq<string>, src: seq<string>, all: seq<string>, rows: seq<int>, texts: seq<string>)
      requires NoDup(dest) && NoDup(src)
      requires forall x :: x in dest || x in src <==> x in all
      requires forall x :: x in dest ==> x !in src
      requires forall k :: 0 <= k < |rows| ==> 0 <= rows[k] < |src|
      requires texts == Picked(src, rows)
      ensures var d := AppendMissing(dest, texts); var s := RemoveRows(src, Elems(rows));
        NoDup(d) && NoDup(s) && (forall x :: x in d || x in s <==> x in all) && (forall x :: x in d ==> x !in s)
    {
      var s := RemoveRows(src, Elems(rows));
      forall x | x in s ensures x !in texts && x !in dest {
        var i :| 0 <= i < |src| && i !in Elems(rows) && src[i] == x;
        forall k | 0 <= k < |rows| ensures texts[k] != x {
          assert rows[k] in Elems(rows);
        }
      }
      forall x | x in all && x !in dest && x !in texts ensures x in s {
        var i :| 0 <= i < |src| && src[i] == x;
        forall k | 0 <= k < |rows| ensures rows[k] != i {
          assert texts[k] in texts;
        }
      }
      forall x | x in texts ensures x in all {
        var k :| 0 <= k < |texts| && texts[k] == x;
        assert src[rows[k]] in src;
      }
    }
  }
}
