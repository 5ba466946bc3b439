/** The value-shaping side of the catalog exporter: how property values are written into
    index documents (`value||title` keys, emptiness, per-type conversion), the section chains
    folded from the section tree, the section codes of an element, and the grouping of offer
    rows into one update per product. Database reads and the index manager's calls are not
    modelled: their rows are inputs and their updates are emitted batches. */
module BitrixExport {
  import opened Php
  import opened Mapable
  import CAR = CatalogAggregationResource

  // ------------------------------------------------------------- value keys

  /** `prepareValue` on a string: every `/` becomes `_`, character by character. */
  function PrepareValue(s: string): (r: string)
    ensures |r| == |s|
    ensures forall i :: 0 <= i < |s| ==> r[i] == if s[i] == '/' then '_' else s[i]
    ensures '/' !in r
  {
    ReplaceCharPointwise(s, '/', '_');
    ReplaceCharRemoves(s, '/', '_');
    ReplaceAll(s, "/", "_")
  }

  /** `prepareValue` on any value: scalars are converted to a string first, and an array has
      each of its entries replaced, keys kept. */
  function PrepareValueOf(v: Value): (r: Value)
    ensures !IsArray(v) ==> r == VStr(PrepareValue(StrOf(v)))
    ensures v.VList? ==> r.VList? && |r.items| == |v.items|
    ensures v.VMap? ==> r.VMap? && Keys(r.entries) == Keys(v.entries)
  {
    match v
    case VList(items) => VList(seq(|items|, i requires 0 <= i < |items| => VStr(PrepareValue(StrOf(items[i])))))
    case VMap(es) => VMap(MapValues(es, x => VStr(PrepareValue(StrOf(x)))))
    case _ => VStr(PrepareValue(StrOf(v)))
  }

  /** `prepareComputed`: the prepared value and the title joined by `||`; an array value
      reads as `Array` once concatenated. */
  function PrepareComputed(v: Value, title: Value): string {
    StrOf(PrepareValueOf(v)) + "||" + StrOf(title)
  }

  /** Replacing `/` neither creates nor removes a `|`, so `||` stays absent and a value
      still does not end with `|`. */
  lemma PrepareValueKeepsBars(s: string)
    requires !Contains(s, "||")
    ensures !Contains(PrepareValue(s), "||")
    ensures s != [] && s[|s| - 1] != '|' ==> PrepareValue(s)[|s| - 1] != '|'
  {
    var r := PrepareValue(s);
    forall j: nat | StartsAt(r, j, "||")
      ensures StartsAt(s, j, "||")
    {
      assert r[j] == r[j..j + 2][0] && r[j + 1] == r[j..j + 2][1];
      assert s[j..j + 2] == [s[j], s[j + 1]];
    }
  }

  /** The aggregation decoder splits a bucket key written by `prepareComputed` back into the
      prepared value and the title, when neither holds `||` and the value does not end
      with `|`. */
  lemma ComputedKeyRoundTrip(v: string, t: string)
    requires !Contains(v, "||") && !Contains(t, "||") && (v == [] || v[|v| - 1] != '|')
    ensures Split(PrepareComputed(VStr(v), VStr(t)), "||") == [PrepareValue(v), t]
  {
    PrepareValueKeepsBars(v);
    CAR.SplitComputedKey(PrepareValue(v), t);
  }

  // ------------------------------------------------------------- emptiness

  /** The entries of an array, in order; a scalar has none. */
  function Elements(v: Value): (r: seq<Value>)
    ensures v.VList? ==> r == v.items
    ensures v.VMap? ==> |r| == |v.entries| && forall i :: 0 <= i < |r| ==> r[i] == v.entries[i].1
    ensures !IsArray(v) ==> r == []
  {
    match v
    case VList(items) => items
    case VMap(es) => seq(|es|, i requires 0 <= i < |es| => es[i].1)
    case _ => []
  }

  /** How many entries survive a filter dropping nulls. */
  function NonNullCount(xs: seq<Value>): (n: nat)
    ensures n <= |xs|
    ensures n == 0 <==> forall i :: 0 <= i < |xs| ==> xs[i] == VNull
  {
    if xs == [] then 0
    else NonNullCount(xs[..|xs| - 1]) + (if xs[|xs| - 1] == VNull then 0 else 1)
  }

  /** `dataIsEmpty`: PHP-empty data is empty, any other scalar is not, and a non-empty array
      is empty exactly when all its entries are null. */
  function DataIsEmpty(d: Value): (r: bool)
    ensures Empty(d) ==> r
    ensures !Empty(d) && !IsArray(d) ==> !r
    ensures !Empty(d) && IsArray(d) ==> (r <==> forall i :: 0 <= i < |Elements(d)| ==> Elements(d)[i] == VNull)
  {
    if Empty(d) then true
    else if !IsArray(d) then false
    else NonNullCount(Elements(d)) == 0
  }

  // ------------------------------------------------------------- per-type conversion

  /** The names of a descriptor's sub-properties, in order. */
  function Names(item: Mapable): (ns: seq<string>)
    ensures |ns| == |Children(item)|
  {
    var ps := Children(item);
    seq(|ps|, i requires 0 <= i < |ps| => ps[i].name)
  }

  /** The configured keys `d` has a non-null entry for, keyed as in `d`. */
  function Projection(d: Value, names: seq<string>): OMap<Value>
  {
    if names == [] then []
    else
      var acc := Projection(d, names[..|names| - 1]);
      var k := names[|names| - 1];
      if Field(d, k) != VNull then Put(acc, k, Field(d, k)) else acc
  }

  /** A sub-property of a single nested value: the value's own entry when it has one, else
      the `value||value` key for `computed`, the prepared value for `value`, and the value
      itself for any other name. */
  function FillValue(d: Value, k: string): Value {
    if Field(d, k) != VNull then Field(d, k)
    else if k == "computed" then VStr(PrepareComputed(d, d))
    else if k == "value" then PrepareValueOf(d)
    else d
  }

  function Filled(d: Value, names: seq<string>): OMap<Value>
  {
    if names == [] then []
    else
      var k := names[|names| - 1];
      Put(Filled(d, names[..|names| - 1]), k, FillValue(d, k))
  }

  /** The entries that are not PHP-empty, in order. */
  function NonEmptyOf(xs: seq<Value>): (r: seq<Value>)
    ensures forall x :: x in r <==> x in xs && !Empty(x)
  {
    if xs == [] then []
    else NonEmptyOf(xs[..|xs| - 1]) + (if Empty(xs[|xs| - 1]) then [] else [xs[|xs| - 1]])
  }

  /** One projected record per non-empty entry. */
  function ProjectedRows(xs: seq<Value>, names: seq<string>): seq<Value>
  {
    if xs == [] then []
    else
      var x := xs[|xs| - 1];
      ProjectedRows(xs[..|xs| - 1], names) + (if Empty(x) then [] else [VMap(Projection(x, names))])
  }

  lemma ProjectedRowsStep(xs: seq<Value>, i: nat, names: seq<string>)
    requires i < |xs|
    ensures ProjectedRows(xs[..i + 1], names) ==
      ProjectedRows(xs[..i], names) + (if Empty(xs[i]) then [] else [VMap(Projection(xs[i], names))])
  {
    assert xs[..i + 1][..i] == xs[..i];
  }

  /** An entry of a keyword list: its title when it is an array with one. */
  function TitleOrSelf(x: Value): Value {
    if IsArray(x) && Field(x, "title") != VNull then Field(x, "title") else x
  }

  /** A list of values: an array without a title. */
  predicate IsValueList(data: Value) {
    IsArray(data) && Empty(Field(data, "title"))
  }

  /** What `modifyDataForElastic` stores for `data` in a field described by `item`. The
      `(float)` cast is the parameter `toFloat`. */
  function Modified(item: Mapable, data: Value, toFloat: Value -> Value): Value {
    if item.fieldType == "boolean" then VBool(data == VStr("Y") || data == VBool(true))
    else if item.fieldType == "float" then toFloat(data)
    else if item.fieldType == "integer" then VInt(ToInt(data))
    else if item.fieldType == "nested" then
      if IsValueList(data) then VList(ProjectedRows(Elements(data), Names(item)))
      else VMap(Filled(data, Names(item)))
    else if IsValueList(data) then
      var xs := Elements(data);
      VList(seq(|xs|, i requires 0 <= i < |xs| => TitleOrSelf(xs[i])))
    else if !Empty(Field(data, "title")) then Field(data, "title")
    else data
  }

  /** A projected record holds exactly the configured keys the entry sets, with its values. */
  lemma {:induction false} ProjectionGet(d: Value, names: seq<string>, k: string)
    ensures Get(Projection(d, names), k) == if k in names && Field(d, k) != VNull then Some(Field(d, k)) else None
  {
    if names != [] {
      var front := names[..|names| - 1];
      ProjectionGet(d, front, k);
      assert names == front + [names[|names| - 1]];
    }
  }

  /** A single nested value gets every configured key, each filled by `FillValue`, and no
      other key. */
  lemma {:induction false} FilledGet(d: Value, names: seq<string>, k: string)
    ensures Get(Filled(d, names), k) == if k in names then Some(FillValue(d, k)) else None
  {
    if names != [] {
      var front := names[..|names| - 1];
      FilledGet(d, front, k);
      assert names == front + [names[|names| - 1]];
    }
  }

  /** A list of nested values keeps its non-empty entries, in order, each projected. */
  lemma {:induction false} ProjectedRowsSpec(xs: seq<Value>, names: seq<string>)
    ensures var ne := NonEmptyOf(xs);
      |ProjectedRows(xs, names)| == |ne| &&
      forall i :: 0 <= i < |ne| ==> ProjectedRows(xs, names)[i] == VMap(Projection(ne[i], names))
  {
    if xs != [] {
      ProjectedRowsSpec(xs[..|xs| - 1], names);
    }
  }

  /** A boolean field stores true exactly for `'Y'` and `true`. */
  lemma ModifiedBool(item: Mapable, data: Value, toFloat: Value -> Value)
    requires item.fieldType == "boolean"
    ensures Modified(item, data, toFloat) == VBool(true) <==> data == VStr("Y") || data == VBool(true)
    ensures Modified(item, data, toFloat).VBool?
  {
  }

  /** A nested field given a list keeps each non-empty entry projected on the configured
      sub-property names it sets, and drops the empty entries. */
  lemma NestedList(item: Mapable, data: Value, toFloat: Value -> Value)
    requires item.fieldType == "nested" && IsValueList(data)
    ensures var r := Modified(item, data, toFloat); var ne := NonEmptyOf(Elements(data));
      && r.VList? && |r.items| == |ne|
      && forall i, k :: 0 <= i < |ne| ==>
           (r.items[i].VMap? &&
            Get(r.items[i].entries, k) == if k in Names(item) && Field(ne[i], k) != VNull then Some(Field(ne[i], k)) else None)
  {
    var ne := NonEmptyOf(Elements(data));
    ProjectedRowsSpec(Elements(data), Names(item));
    forall i, k | 0 <= i < |ne|
      ensures Get(Projection(ne[i], Names(item)), k) ==
        if k in Names(item) && Field(ne[i], k) != VNull then Some(Field(ne[i], k)) else None
    {
      ProjectionGet(ne[i], Names(item), k);
    }
  }

  /** A nested field given a single value has every configured key: the value's own entry,
      else `prepareComputed(d, d)` for `computed`, `prepareValue(d)` for `value` and `d`. */
  lemma NestedSingle(item: Mapable, data: Value, toFloat: Value -> Value, k: string)
    requires item.fieldType == "nested" && !IsValueList(data)
    ensures var r := Modified(item, data, toFloat);
      && r.VMap?
      && (k !in Names(item) ==> Get(r.entries, k) == None)
      && (k in Names(item) && Field(data, k) != VNull ==> Get(r.entries, k) == Some(Field(data, k)))
      && (k in Names(item) && Field(data, k) == VNull ==>
            Get(r.entries, k) == Some(if k == "computed" then VStr(PrepareComputed(data, data))
                                      else if k == "value" then PrepareValueOf(data) else data))
  {
    FilledGet(data, Names(item), k);
  }

  method ProjectEntry(d: Value, names: seq<string>) returns (result: OMap<Value>)
    ensures result == Projection(d, names)
  {
    result := [];
    var i := 0;
    while i < |names|
      invariant 0 <= i <= |names|
      invariant result == Projection(d, names[..i])
    {
      var k := names[i];
      assert names[..i + 1][..i] == names[..i];
      if Field(d, k) != VNull {
        result := Put(result, k, Field(d, k));
      }
      i := i + 1;
    }
    assert names[..i] == names;
  }

  method FillEntry(d: Value, names: seq<string>) returns (result: OMap<Value>)
    ensures result == Filled(d, names)
  {
    result := [];
    var i := 0;
    while i < |names|
      invariant 0 <= i <= |names|
      invariant result == Filled(d, names[..i])
    {
      var k := names[i];
      assert names[..i + 1][..i] == names[..i];
      if Field(d, k) != VNull {
        result := Put(result, k, Field(d, k));
      } else if k == "computed" {
        result := Put(result, k, VStr(PrepareComputed(d, d)));
      } else if k == "value" {
        result := Put(result, k, PrepareValueOf(d));
      } else {
        result := Put(result, k, d);
      }
      i := i + 1;
    }
    assert names[..i] == names;
  }

  /** `modifyDataForElastic`. */
  method ModifyDataForElastic(item: Mapable, data: Value, toFloat: Value -> Value) returns (r: Value)
    ensures r == Modified(item, data, toFloat)
  {
    if item.fieldType == "boolean" {
      return VBool(data == VStr("Y") || data == VBool(true));
    }
    if item.fieldType == "float" {
      return toFloat(data);
    }
    if item.fieldType == "integer" {
      return VInt(ToInt(data));
    }
    if item.fieldType == "nested" {
      var names := Names(item);
      if IsValueList(data) {
        var xs := Elements(data);
        var results := [];
        var i := 0;
        while i < |xs|
          invariant 0 <= i <= |xs|
          invariant results == ProjectedRows(xs[..i], names)
        {
          ProjectedRowsStep(xs, i, names);
          if !Empty(xs[i]) {
            var result := ProjectEntry(xs[i], names);
            results := results + [VMap(result)];
          }
          i := i + 1;
        }
        assert xs[..i] == xs;
        return VList(results);
      }
      var result := FillEntry(data, names);
      return VMap(result);
    }
    if IsValueList(data) {
      var xs := Elements(data);
      return VList(seq(|xs|, i requires 0 <= i < |xs| => TitleOrSelf(xs[i])));
    }
    if !Empty(Field(data, "title")) {
      return Field(data, "title");
    }
    return data;
  }

  // ------------------------------------------------------------- sections

  /** One row of the section tree, in left-margin order; `parent` is absent for a root. */
  datatype SectionRow = SectionRow(id: int, parent: Option<int>, code: string, name: string)

  /** What `fillSections` records for one section: the codes from the root down to it, its
      filter record, and its name chain. */
  datatype Section = Section(codes: seq<string>, record: OMap<Value>, nameChain: string)

  function Ids(rows: seq<SectionRow>): set<int> {
    if rows == [] then {} else Ids(rows[..|rows| - 1]) + {rows[|rows| - 1].id}
  }

  /** Left-margin order: every parent comes before its children. */
  predicate ParentsFirst(rows: seq<SectionRow>) {
    rows == [] ||
    (var last := rows[|rows| - 1];
     ParentsFirst(rows[..|rows| - 1]) && (last.parent.Some? ==> last.parent.value in Ids(rows[..|rows| - 1])))
  }

  predicate DistinctIds(rows: seq<SectionRow>) {
    rows == [] || (DistinctIds(rows[..|rows| - 1]) && rows[|rows| - 1].id !in Ids(rows[..|rows| - 1]))
  }

  lemma {:induction false} ParentsFirstPrefix(rows: seq<SectionRow>, i: nat)
    requires ParentsFirst(rows) && i <= |rows|
    ensures ParentsFirst(rows[..i])
    decreases |rows|
  {
    if i < |rows| {
      ParentsFirstPrefix(rows[..|rows| - 1], i);
      assert rows[..|rows| - 1][..i] == rows[..i];
    } else {
      assert rows[..i] == rows;
    }
  }

  /** The filter record of a section: title, code, id as a string, and `code||name`. */
  function SectionCode(row: SectionRow): OMap<Value> {
    [("title", VStr(row.name)), ("value", VStr(row.code)), ("keyId", VStr(IntToString(row.id))),
     ("computed", VStr(PrepareComputed(VStr(row.code), VStr(row.name))))]
  }

  /** The name chain of a section: the parent's chain, a `/` and the name, or just the name
      when the parent has no (PHP-non-empty) chain. */
  function NameChain(m: map<int, Section>, row: SectionRow): string {
    if row.parent.None? || row.parent.value !in m || Empty(VStr(m[row.parent.value].nameChain)) then row.name
    else m[row.parent.value].nameChain + "/" + row.name
  }

  /** One row of the fold: a root appends its code to its own (normally absent) chain, a
      child takes its parent's chain plus its code. */
  function Step(m: map<int, Section>, row: SectionRow): map<int, Section>
    requires row.parent.Some? ==> row.parent.value in m
  {
    var own := if row.parent.None? then (if row.id in m then m[row.id].codes else [])
               else m[row.parent.value].codes;
    m[row.id := Section(own + [row.code], SectionCode(row), NameChain(m, row))]
  }

  function Fold(rows: seq<SectionRow>): (m: map<int, Section>)
    requires ParentsFirst(rows)
    ensures m.Keys == Ids(rows)
  {
    if rows == [] then map[] else Step(Fold(rows[..|rows| - 1]), rows[|rows| - 1])
  }

  lemma {:induction false} IdsPrefix(rows: seq<SectionRow>, i: nat)
    requires i <= |rows|
    ensures Ids(rows[..i]) <= Ids(rows)
  {
    if i < |rows| {
      IdsPrefix(rows[..|rows| - 1], i);
      assert rows[..|rows| - 1][..i] == rows[..i];
    } else {
      assert rows[..i] == rows;
    }
  }

  lemma {:induction false} DistinctPrefix(rows: seq<SectionRow>, i: nat)
    requires DistinctIds(rows) && i <= |rows|
    ensures DistinctIds(rows[..i])
  {
    if i < |rows| {
      DistinctPrefix(rows[..|rows| - 1], i);
      assert rows[..|rows| - 1][..i] == rows[..i];
    } else {
      assert rows[..i] == rows;
    }
  }

  /** One more row: the fold takes one step, and the row's parent is already folded. */
  lemma FoldSnoc(rows: seq<SectionRow>, i: nat)
    requires ParentsFirst(rows) && i < |rows|
    ensures ParentsFirst(rows[..i]) && ParentsFirst(rows[..i + 1])
    ensures rows[i].parent.Some? ==> rows[i].parent.value in Fold(rows[..i])
    ensures Fold(rows[..i + 1]) == Step(Fold(rows[..i]), rows[i])
  {
    ParentsFirstPrefix(rows, i);
    ParentsFirstPrefix(rows, i + 1);
    assert rows[..i + 1][..i] == rows[..i];
  }

  /** With distinct ids, what the fold records for a section is never overwritten later. */
  lemma {:induction false} FoldStable(rows: seq<SectionRow>, j: nat, k: int)
    requires ParentsFirst(rows) && DistinctIds(rows) && j <= |rows|
    requires ParentsFirst(rows[..j]) && k in Ids(rows[..j])
    ensures k in Fold(rows) && k in Fold(rows[..j]) && Fold(rows)[k] == Fold(rows[..j])[k]
  {
    IdsPrefix(rows, j);
    if j == |rows| {
      assert rows[..j] == rows;
    } else {
      var front := rows[..|rows| - 1];
      assert front[..j] == rows[..j];
      FoldStable(front, j, k);
      IdsPrefix(front, j);
    }
  }

  /** With distinct ids, a root's code chain is its code, a child's chain is its parent's
      plus its code, its name chain extends the parent's with `/`, and its filter record
      carries `code||name`. */
  lemma SectionChains(rows: seq<SectionRow>, i: nat)
    requires ParentsFirst(rows) && DistinctIds(rows) && i < |rows|
    ensures var m := Fold(rows); var row := rows[i];
      && row.id in m
      && (row.parent.Some? ==> row.parent.value in m)
      && m[row.id].codes == (if row.parent.None? then [] else m[row.parent.value].codes) + [row.code]
      && m[row.id].nameChain == NameChain(m, row)
      && m[row.id].record == SectionCode(row)
  {
    var p := rows[..i + 1];
    FoldSnoc(rows, i);
    DistinctPrefix(rows, i + 1);
    assert p[..i] == rows[..i] && p[i] == rows[i];
    FoldStable(rows, i + 1, rows[i].id);
    if rows[i].parent.Some? {
      IdsPrefix(p, i);
      FoldStable(rows, i + 1, rows[i].parent.value);
    }
  }

  /** The row loop of `fillSections`. */
  method FoldRows(rows: seq<SectionRow>) returns (m: map<int, Section>)
    requires ParentsFirst(rows)
    ensures m == Fold(rows)
  {
    m := map[];
    var i := 0;
    while i < |rows|
      invariant 0 <= i <= |rows|
      invariant ParentsFirst(rows[..i]) && m == Fold(rows[..i])
    {
      FoldSnoc(rows, i);
      m := Step(m, rows[i]);
      i := i + 1;
    }
    assert rows[..i] == rows;
  }

  /** The three arrays `fillSections` keeps, each keyed by section id. */
  function CodeChains(m: map<int, Section>): map<int, seq<string>> {
    map k | k in m :: m[k].codes
  }

  function Records(m: map<int, Section>): map<int, OMap<Value>> {
    map k | k in m :: m[k].record
  }

  function NameChains(m: map<int, Section>): map<int, string> {
    map k | k in m :: m[k].nameChain
  }

  /** The exporter's section caches. */
  class SectionCache {
    var parentsSectionById: map<int, map<int, seq<string>>>
    var sectionCodeById: map<int, map<int, OMap<Value>>>
    var sectionsChain: map<int, string>

    constructor ()
      ensures parentsSectionById == map[] && sectionCodeById == map[] && sectionsChain == map[]
    {
      parentsSectionById := map[];
      sectionCodeById := map[];
      sectionsChain := map[];
    }

    /** `fillSections`: folds the section rows of iblock `iBlockId` and stores the chains
        under that iblock; the name chains replace those of any iblock filled before. */
    method FillSections(iBlockId: int, rows: seq<SectionRow>)
      requires ParentsFirst(rows)
      modifies this
      ensures parentsSectionById == old(parentsSectionById)[iBlockId := CodeChains(Fold(rows))]
      ensures sectionCodeById == old(sectionCodeById)[iBlockId := Records(Fold(rows))]
      ensures sectionsChain == NameChains(Fold(rows))
    {
      var m := FoldRows(rows);
      parentsSectionById := parentsSectionById[iBlockId := CodeChains(m)];
      sectionCodeById := sectionCodeById[iBlockId := Records(m)];
      sectionsChain := NameChains(m);
    }

    /** `getParentsSections`: the cached chains of the iblock, filled on first use. */
    method GetParentsSections(iBlockId: int, rows: seq<SectionRow>) returns (chains: map<int, seq<string>>)
      requires ParentsFirst(rows)
      modifies this
      ensures chains == if iBlockId in old(parentsSectionById) then old(parentsSectionById)[iBlockId]
                        else CodeChains(Fold(rows))
      ensures iBlockId in old(parentsSectionById) ==> unchanged(this)
      ensures iBlockId !in old(parentsSectionById) ==>
        && parentsSectionById == old(parentsSectionById)[iBlockId := CodeChains(Fold(rows))]
        && sectionCodeById == old(sectionCodeById)[iBlockId := Records(Fold(rows))]
        && sectionsChain == NameChains(Fold(rows))
      ensures iBlockId in parentsSectionById && parentsSectionById[iBlockId] == chains
    {
      if iBlockId in parentsSectionById {
        return parentsSectionById[iBlockId];
      }
      FillSections(iBlockId, rows);
      chains := parentsSectionById[iBlockId];
    }

    /** `getSections`: the section codes of an element in the sections `groups`, over the
        iblock's cached chains. */
    method GetSections(iBlockId: int, rows: seq<SectionRow>, groups: seq<int>) returns (sections: seq<string>)
      requires ParentsFirst(rows)
      modifies this
      ensures var chains := if iBlockId in old(parentsSectionById) then old(parentsSectionById)[iBlockId]
                            else CodeChains(Fold(rows));
        sections == SectionCodes(chains, groups)
      ensures iBlockId in old(parentsSectionById) ==> unchanged(this)
      ensures iBlockId !in old(parentsSectionById) ==>
        && parentsSectionById == old(parentsSectionById)[iBlockId := CodeChains(Fold(rows))]
        && sectionCodeById == old(sectionCodeById)[iBlockId := Records(Fold(rows))]
        && sectionsChain == NameChains(Fold(rows))
      ensures iBlockId in parentsSectionById
    {
      var chains := GetParentsSections(iBlockId, rows);
      sections := CollectSectionCodes(chains, groups);
    }
  }

  /** `codes` appended to `acc`, skipping codes already there. */
  function AddNew(acc: seq<string>, codes: seq<string>): seq<string>
  {
    if codes == [] then acc
    else
      var a := AddNew(acc, codes[..|codes| - 1]);
      if codes[|codes| - 1] in a then a else a + [codes[|codes| - 1]]
  }

  predicate NoDup(xs: seq<string>) {
    forall i, j :: 0 <= i < j < |xs| ==> xs[i] != xs[j]
  }

  /** Adding keeps what was there in place, adds every new code once, and nothing else. */
  lemma {:induction false} AddNewSpec(acc: seq<string>, codes: seq<string>)
    requires NoDup(acc)
    ensures var r := AddNew(acc, codes);
      && NoDup(r) && |acc| <= |r| && r[..|acc|] == acc
      && forall x :: x in r <==> x in acc || x in codes
  {
    if codes != [] {
      var front := codes[..|codes| - 1];
      AddNewSpec(acc, front);
      assert codes == front + [codes[|codes| - 1]];
      var a := AddNew(acc, front);
      assert (a + [codes[|codes| - 1]])[..|acc|] == a[..|acc|];
    }
  }

  /** The section codes of an element in the sections `groups`: the chains of its sections
      with a non-empty chain, each code kept at its first occurrence. */
  function SectionCodes(chains: map<int, seq<string>>, groups: seq<int>): seq<string>
  {
    if groups == [] then []
    else
      var a := SectionCodes(chains, groups[..|groups| - 1]);
      var g := groups[|groups| - 1];
      if g in chains && chains[g] != [] then AddNew(a, chains[g]) else a
  }

  /** Every code of every listed section's chain appears exactly once, and no other code. */
  lemma {:induction false} SectionCodesSpec(chains: map<int, seq<string>>, groups: seq<int>)
    ensures var r := SectionCodes(chains, groups);
      && NoDup(r)
      && forall x :: x in r <==> exists j :: 0 <= j < |groups| && groups[j] in chains && x in chains[groups[j]]
  {
    if groups != [] {
      var n := |groups| - 1;
      var front := groups[..n];
      SectionCodesSpec(chains, front);
      var a := SectionCodes(chains, front);
      var g := groups[n];
      if g in chains && chains[g] != [] {
        AddNewSpec(a, chains[g]);
      }
      forall x
        ensures x in SectionCodes(chains, groups) <==>
          exists j :: 0 <= j < |groups| && groups[j] in chains && x in chains[groups[j]]
      {
        if x in SectionCodes(chains, groups) {
          if x in a {
            var j :| 0 <= j < |front| && front[j] in chains && x in chains[front[j]];
            assert groups[j] == front[j];
          } else {
            assert groups[n] in chains && x in chains[groups[n]];
          }
        }
        if exists j :: 0 <= j < |groups| && groups[j] in chains && x in chains[groups[j]] {
          var j :| 0 <= j < |groups| && groups[j] in chains && x in chains[groups[j]];
          if j < n {
            assert front[j] == groups[j];
          }
        }
      }
    }
  }

  /** The code-collecting loop of `getSections`, over the chains of the iblock. */
  method CollectSectionCodes(chains: map<int, seq<string>>, groups: seq<int>) returns (sections: seq<string>)
    ensures sections == SectionCodes(chains, groups)
  {
    sections := [];
    var i := 0;
    while i < |groups|
      invariant 0 <= i <= |groups|
      invariant sections == SectionCodes(chains, groups[..i])
    {
      assert groups[..i + 1][..i] == groups[..i];
      var g := groups[i];
      if g in chains && chains[g] != [] {
        var codes := chains[g];
        var base := sections;
        var k := 0;
        while k < |codes|
          invariant 0 <= k <= |codes|
          invariant sections == AddNew(base, codes[..k])
        {
          assert codes[..k + 1][..k] == codes[..k];
          if codes[k] !in sections {
            sections := sections + [codes[k]];
          }
          k := k + 1;
        }
        assert codes[..k] == codes;
      }
      i := i + 1;
    }
    assert groups[..i] == groups;
  }

  // ------------------------------------------------------------- offers

  /** One offer row: its id, the product it links to, and its other columns. */
  datatype OfferRow = OfferRow(id: int, link: Value, columns: OMap<Value>)

  /** One update of a product's offers: the link value (the product is looked up by its
      `(int)` cast) and the offers, in row order. */
  datatype Batch = Batch(link: Value, offers: seq<OfferRow>)

  /** An offer is exported when it links to a product and has a positive store amount. */
  predicate Available(row: OfferRow, stores: map<int, int>) {
    !Empty(row.link) && row.id in stores && stores[row.id] > 0
  }

  function MarkAvailable(row: OfferRow): OfferRow {
    row.(columns := Put(row.columns, "STORE_QUANTITY", VBool(true)))
  }

  /** The exported offers, in row order, marked available. */
  function Kept(rows: seq<OfferRow>, stores: map<int, int>): seq<OfferRow> {
    if rows == [] then []
    else
      var row := rows[|rows| - 1];
      Kept(rows[..|rows| - 1], stores) + (if Available(row, stores) then [MarkAvailable(row)] else [])
  }

  /** Exactly the available offers are kept, each marked in stock. */
  lemma {:induction false} KeptSpec(rows: seq<OfferRow>, stores: map<int, int>)
    ensures forall o :: o in Kept(rows, stores) ==> !Empty(o.link) && o.id in stores && stores[o.id] > 0
    ensures forall o :: o in Kept(rows, stores) ==> Get(o.columns, "STORE_QUANTITY") == Some(VBool(true))
    ensures forall row :: row in rows && Available(row, stores) ==> MarkAvailable(row) in Kept(rows, stores)
  {
    if rows != [] {
      var front := rows[..|rows| - 1];
      KeptSpec(front, stores);
      assert rows == front + [rows[|rows| - 1]];
    }
  }

  /** One more offer: it joins the last batch when that has its link, else starts a batch. */
  function Extend(batches: seq<Batch>, o: OfferRow): seq<Batch> {
    if batches != [] && batches[|batches| - 1].link == o.link then
      var b := batches[|batches| - 1];
      batches[..|batches| - 1] + [Batch(b.link, b.offers + [o])]
    else batches + [Batch(o.link, [o])]
  }

  /** The offers cut into runs of equal links. */
  function Runs(offers: seq<OfferRow>): seq<Batch> {
    if offers == [] then [] else Extend(Runs(offers[..|offers| - 1]), offers[|offers| - 1])
  }

  function Flatten(batches: seq<Batch>): seq<OfferRow> {
    if batches == [] then [] else Flatten(batches[..|batches| - 1]) + batches[|batches| - 1].offers
  }

  /** Each batch is non-empty with a single link, and consecutive batches have different
      links. */
  predicate WellRun(bs: seq<Batch>) {
    && (forall i :: 0 <= i < |bs| ==> bs[i].offers != [] && forall o :: o in bs[i].offers ==> o.link == bs[i].link)
    && (forall i :: 0 < i < |bs| ==> bs[i - 1].link != bs[i].link)
  }

  lemma ExtendFlatten(bs: seq<Batch>, o: OfferRow)
    ensures Flatten(Extend(bs, o)) == Flatten(bs) + [o]
  {
    if bs != [] && bs[|bs| - 1].link == o.link {
      var m := |bs| - 1;
      var rs := bs[..m] + [Batch(bs[m].link, bs[m].offers + [o])];
      assert rs[..m] == bs[..m];
      assert Flatten(bs) == Flatten(bs[..m]) + bs[m].offers;
    } else {
      assert (bs + [Batch(o.link, [o])])[..|bs|] == bs;
    }
  }

  lemma ExtendWellRun(bs: seq<Batch>, o: OfferRow)
    requires WellRun(bs)
    ensures WellRun(Extend(bs, o))
  {
  }

  /** The runs hold all the offers in order; each is non-empty with a single link, and
      consecutive runs have different links. */
  lemma {:induction false} RunsSpec(offers: seq<OfferRow>)
    ensures Flatten(Runs(offers)) == offers && WellRun(Runs(offers))
  {
    RunsFlatten(offers);
    RunsWell(offers);
  }

  lemma {:induction false} RunsFlatten(offers: seq<OfferRow>)
    ensures Flatten(Runs(offers)) == offers
  {
    if offers != [] {
      var n := |offers| - 1;
      var init, o := offers[..n], offers[n];
      assert offers == init + [o];
      calc {
        Flatten(Runs(offers));
        Flatten(Extend(Runs(init), o));
        { ExtendFlatten(Runs(init), o); }
        Flatten(Runs(init)) + [o];
        { RunsFlatten(init); }
        init + [o];
      }
    }
  }

  lemma {:induction false} RunsWell(offers: seq<OfferRow>)
    ensures WellRun(Runs(offers))
  {
    if offers != [] {
      var n := |offers| - 1;
      var init, o := offers[..n], offers[n];
      assert Runs(offers) == Extend(Runs(init), o);
      RunsWell(init);
      ExtendWellRun(Runs(init), o);
    }
  }

  /** Closing the open batch, if it has offers. */
  function Close(batches: seq<Batch>, link: Option<Value>, open: seq<OfferRow>): seq<Batch>
    requires open != [] ==> link.Some?
  {
    if open == [] then batches else batches + [Batch(link.value, open)]
  }

  lemma KeptStep(rows: seq<OfferRow>, i: nat, stores: map<int, int>)
    requires i < |rows|
    ensures Kept(rows[..i + 1], stores) ==
      Kept(rows[..i], stores) + (if Available(rows[i], stores) then [MarkAvailable(rows[i])] else [])
  {
    assert rows[..i + 1][..i] == rows[..i];
  }

  lemma RunsSnoc(offers: seq<OfferRow>, o: OfferRow)
    ensures Runs(offers + [o]) == Extend(Runs(offers), o)
  {
    assert (offers + [o])[..|offers|] == offers;
  }

  /** The loop's accumulators after one more available offer still close to the runs. */
  lemma LoadStep(kept: seq<OfferRow>, batches: seq<Batch>, link: Option<Value>, open: seq<OfferRow>, o: OfferRow,
                 batches': seq<Batch>, link': Option<Value>, open': seq<OfferRow>)
    requires link.None? ==> batches == [] && open == []
    requires link.Some? ==> open != []
    requires Close(batches, link, open) == Runs(kept)
    requires link' == Some(o.link)
    requires link.Some? && link.value != o.link ==> batches' == batches + [Batch(link.value, open)] && open' == [o]
    requires !(link.Some? && link.value != o.link) ==> batches' == batches && open' == open + [o]
    ensures open' != [] && Close(batches', link', open') == Runs(kept + [o])
  {
    RunsSnoc(kept, o);
    CloseStep(batches, link, open, o);
    assert [] + [o] == [o];
  }

  /** One offer on the loop's accumulators: a new link flushes the open batch first. */
  lemma CloseStep(batches: seq<Batch>, link: Option<Value>, open: seq<OfferRow>, o: OfferRow)
    requires link.None? ==> batches == [] && open == []
    requires link.Some? ==> open != []
    ensures Extend(Close(batches, link, open), o) ==
      if link.Some? && link.value != o.link then Close(batches + [Batch(link.value, open)], Some(o.link), [o])
      else Close(batches, Some(o.link), open + [o])
  {
    if link.Some? {
      var b := Batch(link.value, open);
      assert (batches + [b])[..|batches|] == batches;
      if link.value == o.link {
        assert Extend(batches + [b], o) == batches + [Batch(link.value, open + [o])];
      } else {
        assert Extend(batches + [b], o) == batches + [b] + [Batch(o.link, [o])];
      }
    } else {
      assert [] + [o] == [o];
      assert Extend([], o) == [Batch(o.link, [o])];
    }
  }

  /** The grouping loop of `loadOfferData`: nothing without an `offers` element, else one
      batch per run of equal links among the exported offers, flushed when the link changes
      and once at the end. */
  method LoadOfferData(hasOffersElement: bool, rows: seq<OfferRow>, stores: map<int, int>) returns (batches: seq<Batch>)
    ensures batches == if hasOffersElement then Runs(Kept(rows, stores)) else []
  {
    batches := [];
    if !hasOffersElement {
      return;
    }
    var elLink: Option<Value> := None;
    var elArr: seq<OfferRow> := [];
    ghost var kept: seq<OfferRow> := [];
    var i := 0;
    while i < |rows|
      invariant 0 <= i <= |rows|
      invariant elLink.None? ==> batches == [] && elArr == []
      invariant elLink.Some? ==> elArr != []
      invariant kept == Kept(rows[..i], stores)
      invariant Close(batches, elLink, elArr) == Runs(kept)
    {
      KeptStep(rows, i, stores);
      var elem := rows[i];
      if Available(elem, stores) {
        var o := MarkAvailable(elem);
        ghost var batches0, link0, arr0 := batches, elLink, elArr;
        assert [] + [o] == [o];
        if elLink.Some? && elLink.value != o.link {
          batches := batches + [Batch(elLink.value, elArr)];
          elLink := Some(o.link);
          elArr := [];
        }
        if elLink.None? {
          elLink := Some(o.link);
        }
        elArr := elArr + [o];
        LoadStep(kept, batches0, link0, arr0, o, batches, elLink, elArr);
        kept := kept + [o];
      }
      i := i + 1;
    }
    assert rows[..i] == rows;
    if elArr != [] {
      batches := batches + [Batch(elLink.value, elArr)];
    }
  }
}
