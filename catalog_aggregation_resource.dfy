/** Decodes the aggregation part of a search response into the catalog's property list:
    min/max for numeric properties, one value entry per bucket for the others, values
    ordered by label. */
module CatalogAggregationResource {
  import opened Php
  import IC = IndexConfig
  import SB = SearchBuilder

  /** A property row: a PHP array with at least `CODE`, `ID`, `IBLOCK_ID` and `PROPERTY_TYPE`. */
  type Property = OMap<Value>

  /** The code a property is looked up under. */
  function CodeOf(property: Property): string {
    Lower(StrOf(At(property, "CODE")))
  }

  /** A property of the offer iblock: its `IBLOCK_ID`, cast to int, is the offer iblock id. */
  predicate IsOfferProperty(property: Property, offerIBlockId: int) {
    ToInt(At(property, "IBLOCK_ID")) == offerIBlockId
  }

  /** `VALUES` is absent or an array, so entries can be written into it. */
  predicate ValuesSlotOk(property: Property) {
    At(property, "VALUES").VNull? || At(property, "VALUES").VMap?
  }

  function ControlName(property: Property): string {
    "catalogFilter_" + StrOf(At(property, "ID"))
  }

  // ------------------------------------------------------------- value entries

  /** The entry of one bucket: what its eleven fields are made of. */
  datatype ValueItem = ValueItem(control: string, code: string, value: Value, title: Value, sort: int, count: Value)

  /** The entry of a range bound. */
  datatype BoundItem = BoundItem(controlId: string, controlName: string, htmlValue: Value,
                                 htmlValueAlt: string, display: Value)

  /** An entry of `VALUES`: decoded here, or already in the row. */
  datatype Item = BucketEntry(v: ValueItem) | BoundEntry(b: BoundItem) | Kept(raw: Value)

  /** The entry as the PHP array the filter form reads. */
  function ItemArray(it: Item): Value {
    match it
    case BucketEntry(v) =>
      VMap([("CONTROL_ID", VStr(v.control + "_" + StrOf(v.value))), ("CONTROL_NAME", VStr(v.code + "[]")),
            ("CONTROL_NAME_ALT", VStr(v.code)), ("HTML_VALUE_ALT", VStr("")),
            ("HTML_VALUE", v.value), ("VALUE", Shown(v.title)), ("SORT", VInt(v.sort)),
            ("UPPER", if Empty(v.title) then VNull else VStr(Upper(StrOf(v.title)))), ("FLAG", VInt(1)),
            ("URL_ID", v.value), ("ELEMENT_COUNT", v.count)])
    case BoundEntry(b) =>
      VMap([("CONTROL_ID", VStr(b.controlId)), ("CONTROL_NAME", VStr(b.controlName)),
            ("HTML_VALUE", b.htmlValue), ("HTML_VALUE_ALT", VStr(b.htmlValueAlt)), ("VALUE", b.display)])
    case Kept(raw) => raw
  }

  /** The `VALUE` of a bucket entry: the title with its first letter upper-cased, none for
      an empty title. */
  function Shown(title: Value): Value {
    if Empty(title) then VNull else VStr(UcFirst(StrOf(title)))
  }

  /** The `VALUE` an entry shows. */
  function Display(it: Item): Value {
    match it
    case BucketEntry(v) => Shown(v.title)
    case BoundEntry(b) => b.display
    case Kept(raw) => Field(raw, "VALUE")
  }

  function Kepts(es: OMap<Value>): (r: OMap<Item>)
    ensures |r| == |es| && forall i :: 0 <= i < |es| ==> r[i] == (es[i].0, Kept(es[i].1))
  {
    if es == [] then [] else [(es[0].0, Kept(es[0].1))] + Kepts(es[1..])
  }

  function Arrays(es: OMap<Item>): (r: OMap<Value>)
    ensures |r| == |es| && forall i :: 0 <= i < |es| ==> r[i] == (es[i].0, ItemArray(es[i].1))
  {
    if es == [] then [] else [(es[0].0, ItemArray(es[0].1))] + Arrays(es[1..])
  }

  /** The `VALUES` of the row before decoding; None when the row has none. */
  function InitialValues(property: Property): Option<OMap<Item>> {
    match At(property, "VALUES")
    case VMap(es) => Some(Kepts(es))
    case _ => None
  }

  /** `$property['VALUES'][$k] = $item`: creates `VALUES` when it is missing. */
  function PutItem(values: Option<OMap<Item>>, k: string, it: Item): OMap<Item> {
    Put(if values.Some? then values.value else [], k, it)
  }

  /** The row with its decoded `VALUES` written back; unchanged when there are none. */
  function Output(property: Property, values: Option<OMap<Item>>): (r: Property)
    ensures forall k :: k != "VALUES" ==> Get(r, k) == Get(property, k)
    ensures values.Some? ==> Get(r, "VALUES") == Some(VMap(Arrays(values.value)))
    ensures values.None? ==> r == property
  {
    if values.Some? then Put(property, "VALUES", VMap(Arrays(values.value))) else property
  }

  // ------------------------------------------------------------- range properties

  /** `array_pop($a)`: the value of the last entry, null for an empty array. */
  function ArrayPop(v: Value): Value {
    match v
    case VMap(es) => if es == [] then VNull else es[|es| - 1].1
    case VList(items) => if items == [] then VNull else items[|items| - 1]
    case _ => VNull
  }

  /** The bound a min or max result carries: the `value` of its last entry (the metric
      aggregation follows `doc_count` inside its filter aggregation). */
  function BoundValue(data: Value, name: string): Value {
    Field(ArrayPop(Field(data, name)), "value")
  }

  function RangeItem(property: Property, name: string, value: Value): Item {
    BoundEntry(BoundItem(ControlName(property) + "_" + StrOf(value), name, value, name, value))
  }

  /** Either absent or an array `array_pop` can take. */
  predicate RangeOk(data: Value, name: string) {
    Field(data, name) == VNull || IsArray(Field(data, name))
  }

  /** The `VALUES` of a range property: `MAX` from `<code>_to` and `MIN` from `<code>_from`,
      each only when that aggregation is in the response. */
  function RangeValues(property: Property, code: string, data: Value): (r: Option<OMap<Item>>)
    ensures r.Some? <==> InitialValues(property).Some? || Field(data, code + "_to") != VNull || Field(data, code + "_from") != VNull
    ensures r.Some? ==>
      Get(r.value, "MAX") ==
        if Field(data, code + "_to") != VNull then Some(RangeItem(property, code + "_to", BoundValue(data, code + "_to")))
        else if InitialValues(property).Some? then Get(InitialValues(property).value, "MAX") else None
    ensures r.Some? ==>
      Get(r.value, "MIN") ==
        if Field(data, code + "_from") != VNull then Some(RangeItem(property, code + "_from", BoundValue(data, code + "_from")))
        else if InitialValues(property).Some? then Get(InitialValues(property).value, "MIN") else None
    ensures r.Some? && InitialValues(property).Some? ==>
      forall k :: k != "MAX" && k != "MIN" ==> Get(r.value, k) == Get(InitialValues(property).value, k)
  {
    var v0 := InitialValues(property);
    var v1 := if Field(data, code + "_to") != VNull
      then Some(PutItem(v0, "MAX", RangeItem(property, code + "_to", BoundValue(data, code + "_to"))))
      else v0;
    if Field(data, code + "_from") != VNull
      then Some(PutItem(v1, "MIN", RangeItem(property, code + "_from", BoundValue(data, code + "_from"))))
      else v1
  }

  /** `parseRangeResult`: only `VALUES` of the row changes. */
  function ParseRangeResult(property: Property, code: string, data: Value): Property {
    Output(property, RangeValues(property, code, data))
  }

  // ------------------------------------------------------------- buckets

  /** The buckets of the terms aggregation `<code>.computed`, under their array keys. */
  function Buckets(aggregatedValues: Value, code: string): OMap<Value> {
    match Field(Field(aggregatedValues, code + ".computed"), "buckets")
    case VList(items) => ListEntries(items)
    case VMap(es) => es
    case _ => []
  }

  /** A bucket key split on `||`: the raw value, then the title if there is one. */
  function KeyParts(bucket: Value): seq<string> {
    Split(StrOf(Field(bucket, "key")), "||")
  }

  function DocCountOf(bucket: Value): Value {
    Field(bucket, "doc_count")
  }

  function ValuePart(bucket: Value): Value {
    VStr(KeyParts(bucket)[0])
  }

  /** The title part; reading a missing second part gives null. */
  function TitlePart(bucket: Value): Value {
    var parts := KeyParts(bucket);
    if |parts| >= 2 then VStr(parts[1]) else VNull
  }

  /** `$out[$key] = f($bucket)` for every bucket in order. */
  function Project(buckets: OMap<Value>, f: Value -> Value): (r: OMap<Value>)
    ensures forall k :: Get(r, k).Some? <==> Get(buckets, k).Some?
  {
    if buckets == [] then []
    else
      var last := buckets[|buckets| - 1];
      assert buckets == buckets[..|buckets| - 1] + [last];
      GetSnoc(buckets[..|buckets| - 1], last.0, last.1);
      Put(Project(buckets[..|buckets| - 1], f), last.0, f(last.1))
  }

  /** Each key holds `f` of the last bucket with that key. */
  lemma {:induction false} ProjectGet(buckets: OMap<Value>, f: Value -> Value, i: nat)
    requires i < |buckets| && forall j :: i < j < |buckets| ==> buckets[j].0 != buckets[i].0
    ensures Get(Project(buckets, f), buckets[i].0) == Some(f(buckets[i].1))
  {
    var n := |buckets|;
    var init := buckets[..n - 1];
    if i < n - 1 {
      assert init[i] == buckets[i];
      ProjectGet(init, f, i);
    }
  }

  /** Storing under a new key appends the entry. */
  lemma {:induction false} PutAbsent<V>(m: OMap<V>, k: string, v: V)
    requires Get(m, k).None?
    ensures Put(m, k, v) == m + [(k, v)]
  {
    if m != [] {
      PutAbsent(m[1..], k, v);
      assert [m[0]] + (m[1..] + [(k, v)]) == m + [(k, v)];
    }
  }

  /** With distinct bucket keys the last bucket adds a new entry at the end. */
  lemma ProjectSnocAbsent(buckets: OMap<Value>, f: Value -> Value)
    requires NoDupKeys(buckets) && buckets != []
    ensures Project(buckets, f) ==
      Project(buckets[..|buckets| - 1], f) + [(buckets[|buckets| - 1].0, f(buckets[|buckets| - 1].1))]
  {
    var init, last := buckets[..|buckets| - 1], buckets[|buckets| - 1];
    var p := Project(init, f);
    assert Project(buckets, f) == Put(p, last.0, f(last.1));
    assert Get(p, last.0).None? by {
      NoDupLast(buckets);
    }
    PutAbsent(p, last.0, f(last.1));
  }

  /** With distinct bucket keys (as in any PHP array) the projection is taken bucket by
      bucket, in order. */
  lemma ProjectPointwise(buckets: OMap<Value>, f: Value -> Value)
    requires NoDupKeys(buckets)
    ensures |Project(buckets, f)| == |buckets|
    ensures forall i :: 0 <= i < |buckets| ==> Project(buckets, f)[i] == (buckets[i].0, f(buckets[i].1))
  {
    ProjectLength(buckets, f);
    forall i | 0 <= i < |buckets|
      ensures Project(buckets, f)[i] == (buckets[i].0, f(buckets[i].1))
    {
      ProjectAt(buckets, f, i);
    }
  }

  lemma {:induction false} ProjectLength(buckets: OMap<Value>, f: Value -> Value)
    requires NoDupKeys(buckets)
    ensures |Project(buckets, f)| == |buckets|
  {
    if buckets != [] {
      ProjectSnocAbsent(buckets, f);
      NoDupInit(buckets);
      ProjectLength(buckets[..|buckets| - 1], f);
    }
  }

  lemma {:induction false} ProjectAt(buckets: OMap<Value>, f: Value -> Value, i: nat)
    requires NoDupKeys(buckets) && i < |buckets|
    ensures |Project(buckets, f)| == |buckets|
    ensures Project(buckets, f)[i] == (buckets[i].0, f(buckets[i].1))
  {
    var n := |buckets|;
    var init := buckets[..n - 1];
    ProjectSnocAbsent(buckets, f);
    NoDupInit(buckets);
    ProjectLength(init, f);
    if i < n - 1 {
      ProjectAt(init, f, i);
      assert init[i] == buckets[i];
    }
  }

  /** A value written by the exporter as `value||title` splits back into both parts when
      neither holds `||` and the value does not end with `|`. */
  lemma SplitComputedKey(v: string, t: string)
    requires !Contains(v, "||") && !Contains(t, "||") && (v == [] || v[|v| - 1] != '|')
    ensures Split(v + "||" + t, "||") == [v, t]
  {
    var s := v + "||" + t;
    forall j | 0 <= j < |v|
      ensures !StartsAt(s, j, "||")
    {
      SeparatorNotBefore(v, t, j);
    }
    assert s[|v|..|v| + 2] == "||";
    FindFirst(s, "||", 0, |v|);
    assert s[..|v|] == v;
    assert s[|v| + 2..] == t;
    assert Split(s, "||") == [v] + Split(t, "||");
  }

  lemma SeparatorNotBefore(v: string, t: string, j: nat)
    requires !Contains(v, "||") && (v == [] || v[|v| - 1] != '|') && j < |v|
    ensures !StartsAt(v + "||" + t, j, "||")
  {
    var s := v + "||" + t;
    if j + 2 <= |v| {
      assert s[j..j + 2] == v[j..j + 2];
      assert !StartsAt(v, j, "||");
    } else {
      assert s[j] == v[|v| - 1];
    }
  }

  lemma {:induction false} FindFirst(s: string, sub: string, from: nat, at: nat)
    requires |sub| > 0 && from <= at && StartsAt(s, at, sub)
    requires forall j :: from <= j < at ==> !StartsAt(s, j, sub)
    ensures FindFrom(s, sub, from) == Some(at)
    decreases at - from
  {
    if from < at {
      FindFirst(s, sub, from + 1, at);
    }
  }

  /** So a bucket keyed `v||t` yields the raw value `v` and the title `t`. */
  lemma BucketParts(bucket: Value, v: string, t: string)
    requires Field(bucket, "key") == VStr(v + "||" + t)
    requires !Contains(v, "||") && !Contains(t, "||") && (v == [] || v[|v| - 1] != '|')
    ensures ValuePart(bucket) == VStr(v) && TitlePart(bucket) == VStr(t)
  {
    SplitComputedKey(v, t);
  }

  /** A key without `||` has no title part. */
  lemma BucketNoTitle(bucket: Value)
    requires Field(bucket, "key").VStr? && !Contains(Field(bucket, "key").s, "||")
    ensures ValuePart(bucket) == Field(bucket, "key") && TitlePart(bucket) == VNull
  {
  }

  // ------------------------------------------------------------- bucket entries

  /** The title of a bucket: its title part when set, otherwise its raw value. */
  function TitleFor(titles: OMap<Value>, e: (string, Value)): Value {
    if IsSet(titles, e.0) then At(titles, e.0) else e.1
  }

  /** The document count carried to the `n`-th bucket: the latest one set among the first `n`. */
  function CountUpTo(counts: OMap<Value>, values: OMap<Value>, n: nat): (r: Value)
    requires n <= |values|
    ensures n > 0 && IsSet(counts, values[n - 1].0) ==> r == At(counts, values[n - 1].0)
  {
    if n == 0 then VNull
    else if IsSet(counts, values[n - 1].0) then At(counts, values[n - 1].0)
    else CountUpTo(counts, values, n - 1)
  }

  /** `$docCount` is still null when no bucket among the first `n` has its count set. */
  lemma {:induction false} CountNoneSet(counts: OMap<Value>, values: OMap<Value>, n: nat)
    requires n <= |values| && forall j :: 0 <= j < n ==> !IsSet(counts, values[j].0)
    ensures CountUpTo(counts, values, n) == VNull
  {
    if n > 0 {
      CountNoneSet(counts, values, n - 1);
    }
  }

  /** Otherwise `$docCount` carries the count of the latest bucket whose count is set. */
  lemma {:induction false} CountCarried(counts: OMap<Value>, values: OMap<Value>, n: nat, j: nat)
    requires j < n <= |values| && IsSet(counts, values[j].0)
    requires forall l :: j < l < n ==> !IsSet(counts, values[l].0)
    ensures CountUpTo(counts, values, n) == At(counts, values[j].0)
  {
    if j < n - 1 {
      CountCarried(counts, values, n - 1, j);
    }
  }

  lemma PutItemGet(values: Option<OMap<Item>>, k: string, it: Item)
    ensures Get(PutItem(values, k, it), k) == Some(it)
  {
  }

  lemma PutItemOther(values: Option<OMap<Item>>, k: string, k': string, it: Item)
    requires k != k'
    ensures Get(PutItem(values, k, it), k') == if values.Some? then Get(values.value, k') else None
  {
  }

  /** `getDataByBuckets` over the first `n` raw values in order: the `i`-th bucket (from 0) is
      filed under its raw value as `FillItem`. */
  function FillUpTo(property: Property, code: string, counts: OMap<Value>, titles: OMap<Value>,
                    values: OMap<Value>, n: nat): Option<OMap<Item>>
    requires n <= |values|
  {
    Puts(InitialValues(property), Entries(property, code, counts, titles, values, n))
  }

  /** The entry of the `i`-th bucket (from 0): its raw value and title, `SORT` 4 + 2i, and the
      document count carried to it. */
  function FillItem(property: Property, code: string, counts: OMap<Value>, titles: OMap<Value>,
                    values: OMap<Value>, i: nat): Item
    requires i < |values|
  {
    BucketEntry(ValueItem(ControlName(property), code, values[i].1, TitleFor(titles, values[i]), 4 + 2 * i,
                          CountUpTo(counts, values, i + 1)))
  }

  /** The first `n` buckets' entries, each under its raw value. */
  function Entries(property: Property, code: string, counts: OMap<Value>, titles: OMap<Value>,
                   values: OMap<Value>, n: nat): (r: seq<(string, Item)>)
    requires n <= |values|
    ensures |r| == n
    ensures forall i :: 0 <= i < n ==> r[i].0 == StrOf(values[i].1)
  {
    if n == 0 then []
    else Entries(property, code, counts, titles, values, n - 1)
         + [(StrOf(values[n - 1].1), FillItem(property, code, counts, titles, values, n - 1))]
  }

  lemma {:induction false} EntriesAt(property: Property, code: string, counts: OMap<Value>, titles: OMap<Value>,
                                     values: OMap<Value>, n: nat, i: nat)
    requires i < n <= |values|
    ensures Entries(property, code, counts, titles, values, n)[i].1 == FillItem(property, code, counts, titles, values, i)
  {
    if i < n - 1 {
      EntriesAt(property, code, counts, titles, values, n - 1, i);
    }
  }

  /** `$values[$k] = $item` for each entry in order, starting from `init`. */
  function Puts(init: Option<OMap<Item>>, es: seq<(string, Item)>): Option<OMap<Item>> {
    if es == [] then init
    else Some(PutItem(Puts(init, es[..|es| - 1]), es[|es| - 1].0, es[|es| - 1].1))
  }

  /** The `i`-th entry is found under its key when no later entry has that key. */
  lemma {:induction false} PutsLast(init: Option<OMap<Item>>, es: seq<(string, Item)>, i: nat)
    requires i < |es| && forall j :: i < j < |es| ==> es[j].0 != es[i].0
    ensures Puts(init, es).Some? && Get(Puts(init, es).value, es[i].0) == Some(es[i].1)
  {
    var init' := es[..|es| - 1];
    if i < |es| - 1 {
      assert init'[i] == es[i];
      PutsLast(init, init', i);
      PutItemOther(Puts(init, init'), es[|es| - 1].0, es[i].0, es[|es| - 1].1);
    } else {
      PutItemGet(Puts(init, init'), es[i].0, es[i].1);
    }
  }

  /** A key no entry has keeps what `init` had under it. */
  lemma {:induction false} PutsMiss(init: Option<OMap<Item>>, es: seq<(string, Item)>, k: string)
    requires es != [] || init.Some?
    requires forall j :: 0 <= j < |es| ==> es[j].0 != k
    ensures Puts(init, es).Some?
    ensures Get(Puts(init, es).value, k) == if init.Some? then Get(init.value, k) else None
  {
    if es != [] {
      var init' := es[..|es| - 1];
      PutItemOther(Puts(init, init'), es[|es| - 1].0, k, es[|es| - 1].1);
      if init' != [] || init.Some? {
        PutsMiss(init, init', k);
      }
    }
  }

  /** `VALUES` is keyed by raw value: the entry under the `i`-th bucket's raw value is that
      bucket's, with `SORT` 4 + 2i, unless a later bucket has the same raw value. */
  lemma FillEntry(property: Property, code: string, counts: OMap<Value>, titles: OMap<Value>,
                  values: OMap<Value>, n: nat, i: nat)
    requires i < n <= |values|
    requires forall j :: i < j < n ==> StrOf(values[j].1) != StrOf(values[i].1)
    ensures FillUpTo(property, code, counts, titles, values, n).Some?
    ensures Get(FillUpTo(property, code, counts, titles, values, n).value, StrOf(values[i].1)) ==
      Some(FillItem(property, code, counts, titles, values, i))
  {
    var es := Entries(property, code, counts, titles, values, n);
    EntriesAt(property, code, counts, titles, values, n, i);
    PutsLast(InitialValues(property), es, i);
  }

  /** A raw value none of the first `n` buckets has keeps the entry it had before. */
  lemma FillUntouched(property: Property, code: string, counts: OMap<Value>, titles: OMap<Value>,
                      values: OMap<Value>, n: nat, k: string)
    requires n <= |values|
    requires n > 0 || InitialValues(property).Some?
    requires forall j :: 0 <= j < n ==> StrOf(values[j].1) != k
    ensures FillUpTo(property, code, counts, titles, values, n).Some?
    ensures Get(FillUpTo(property, code, counts, titles, values, n).value, k) ==
      if InitialValues(property).Some? then Get(InitialValues(property).value, k) else None
  {
    PutsMiss(InitialValues(property), Entries(property, code, counts, titles, values, n), k);
  }

  /** One step of the loop in `getDataByBuckets`: the `n`-th bucket's entry is stored under
      its raw value. */
  lemma FillStep(property: Property, code: string, counts: OMap<Value>, titles: OMap<Value>,
                 values: OMap<Value>, n: nat)
    requires 0 < n <= |values|
    ensures FillUpTo(property, code, counts, titles, values, n) ==
      Some(PutItem(FillUpTo(property, code, counts, titles, values, n - 1), StrOf(values[n - 1].1),
                   FillItem(property, code, counts, titles, values, n - 1)))
  {
    var es := Entries(property, code, counts, titles, values, n);
    assert es[..n - 1] == Entries(property, code, counts, titles, values, n - 1);
  }

  /** The count carried past the `n`-th bucket: its own when set, the carried one otherwise. */
  lemma CountStep(counts: OMap<Value>, values: OMap<Value>, n: nat)
    requires n < |values|
    ensures CountUpTo(counts, values, n + 1) ==
      if IsSet(counts, values[n].0) then At(counts, values[n].0) else CountUpTo(counts, values, n)
  {
  }

  /** `if (isset($countArray[$key])) $docCount = $countArray[$key];` */
  function Carried(counts: OMap<Value>, key: string, docCount: Value): Value {
    if IsSet(counts, key) then At(counts, key) else docCount
  }

  /** The loop step of `getDataByBuckets` over its variables: from the state after `n` buckets,
      the next count and entry give the state after `n + 1`. */
  lemma FillLoopStep(property: Property, code: string, counts: OMap<Value>, titles: OMap<Value>,
                     values: OMap<Value>, n: nat, r: Option<OMap<Item>>, docCount: Value, sort: int)
    requires n < |values| && sort == 2 + 2 * n
    requires FillUpTo(property, code, counts, titles, values, n) == r && CountUpTo(counts, values, n) == docCount
    ensures CountUpTo(counts, values, n + 1) == Carried(counts, values[n].0, docCount)
    ensures FillUpTo(property, code, counts, titles, values, n + 1) ==
      Some(PutItem(r, StrOf(values[n].1),
                   BucketEntry(ValueItem(ControlName(property), code, values[n].1, TitleFor(titles, values[n]),
                                         sort + 2, Carried(counts, values[n].0, docCount)))))
  {
    CountStep(counts, values, n);
    var c := Carried(counts, values[n].0, docCount);
    FillItemIs(property, code, counts, titles, values, n, sort + 2, c);
    FillStep(property, code, counts, titles, values, n + 1);
  }

  /** The entry for bucket `n` carries the running count and the sort key `4 + 2 * n`. */
  lemma FillItemIs(property: Property, code: string, counts: OMap<Value>, titles: OMap<Value>,
                   values: OMap<Value>, n: nat, sort: int, c: Value)
    requires n < |values| && sort == 4 + 2 * n && CountUpTo(counts, values, n + 1) == c
    ensures FillItem(property, code, counts, titles, values, n) ==
      BucketEntry(ValueItem(ControlName(property), code, values[n].1, TitleFor(titles, values[n]), sort, c))
  {
  }

  /** `getDataByBuckets`: one entry per raw value, in bucket order, with a running `SORT`. */
  method GetDataByBuckets(property: Property, code: string, counts: OMap<Value>, values: OMap<Value>,
                          titles: OMap<Value>) returns (r: Option<OMap<Item>>)
    ensures r == FillUpTo(property, code, counts, titles, values, |values|)
  {
    var sort := 2;
    var docCount := VNull;
    r := InitialValues(property);
    var i := 0;
    while i < |values|
      invariant 0 <= i <= |values|
      invariant FillUpTo(property, code, counts, titles, values, i) == r
      invariant sort == 2 + 2 * i
      invariant CountUpTo(counts, values, i) == docCount
    {
      var key := values[i].0;
      var value := values[i].1;
      var title := TitleFor(titles, values[i]);
      FillLoopStep(property, code, counts, titles, values, i, r, docCount, sort);
      docCount := Carried(counts, key, docCount);
      sort := sort + 2;
      var item := ValueItem(ControlName(property), code, value, title, sort, docCount);
      r := Some(PutItem(r, StrOf(value), BucketEntry(item)));
      i := i + 1;
    }
  }

  // ------------------------------------------------------------- nested properties

  /** The decoded `VALUES` of a nested property, before ordering. */
  function NestedValues(property: Property, code: string, aggregatedValues: Value): Option<OMap<Item>> {
    var buckets := Buckets(aggregatedValues, code);
    var vs := Project(buckets, ValuePart);
    FillUpTo(property, code, Project(buckets, DocCountOf), Project(buckets, TitlePart), vs, |vs|)
  }

  /** What `parseNestedResult` demands of a nested property: the aggregated values are an array
      (its parameter is typed `array`), and
      `VALUES` exists once the buckets are read (there is a bucket, or the row had one). */
  predicate NestedOk(property: Property, code: string, aggregatedValues: Value) {
    IsArray(aggregatedValues) && ValuesSlotOk(property)
    && (Buckets(aggregatedValues, code) != [] || At(property, "VALUES").VMap?)
  }

  lemma NestedValuesPresent(property: Property, code: string, aggregatedValues: Value)
    requires NestedOk(property, code, aggregatedValues)
    ensures NestedValues(property, code, aggregatedValues).Some?
  {
    var buckets := Buckets(aggregatedValues, code);
    var vs := Project(buckets, ValuePart);
    if buckets != [] {
      assert Get(buckets, buckets[0].0).Some?;
      assert vs != [];
    }
  }

  /** From a bucket to the entry the form reads: the `i`-th bucket, keyed `v||t` with a
      document count `c`, files under `v` an entry with `HTML_VALUE` and `URL_ID` `v`, `VALUE`
      `ucfirst(t)` (null for a falsy title), `SORT` 4 + 2i and `ELEMENT_COUNT` `c`, unless a
      later bucket has the same raw value. */
  lemma BucketToItem(property: Property, code: string, aggregatedValues: Value, i: nat,
                     v: string, t: string, c: Value)
    requires NoDupKeys(Buckets(aggregatedValues, code)) && i < |Buckets(aggregatedValues, code)|
    requires Field(Buckets(aggregatedValues, code)[i].1, "key") == VStr(v + "||" + t)
    requires !Contains(v, "||") && !Contains(t, "||") && (v == [] || v[|v| - 1] != '|')
    requires DocCountOf(Buckets(aggregatedValues, code)[i].1) == c && c != VNull
    requires forall j :: i < j < |Buckets(aggregatedValues, code)| ==>
      StrOf(ValuePart(Buckets(aggregatedValues, code)[j].1)) != v
    ensures NestedValues(property, code, aggregatedValues).Some?
    ensures var e := Get(NestedValues(property, code, aggregatedValues).value, v);
      e == Some(BucketEntry(ValueItem(ControlName(property), code, VStr(v), VStr(t), 4 + 2 * i, c)))
    ensures ItemArray(BucketEntry(ValueItem(ControlName(property), code, VStr(v), VStr(t), 4 + 2 * i, c))) ==
      VMap([("CONTROL_ID", VStr(ControlName(property) + "_" + v)), ("CONTROL_NAME", VStr(code + "[]")),
            ("CONTROL_NAME_ALT", VStr(code)), ("HTML_VALUE_ALT", VStr("")),
            ("HTML_VALUE", VStr(v)), ("VALUE", if Truthy(t) then VStr(UcFirst(t)) else VNull),
            ("SORT", VInt(4 + 2 * i)), ("UPPER", if Truthy(t) then VStr(Upper(t)) else VNull), ("FLAG", VInt(1)),
            ("URL_ID", VStr(v)), ("ELEMENT_COUNT", c)])
  {
    BucketEntryUnder(property, code, aggregatedValues, i, v, t, c);
    BucketItemArray(ControlName(property), code, v, t, 4 + 2 * i, c);
  }

  /** The form array of a bucket entry with a string value and title. */
  lemma BucketItemArray(control: string, code: string, v: string, t: string, sort: int, c: Value)
    ensures ItemArray(BucketEntry(ValueItem(control, code, VStr(v), VStr(t), sort, c))) ==
      VMap([("CONTROL_ID", VStr(control + "_" + v)), ("CONTROL_NAME", VStr(code + "[]")),
            ("CONTROL_NAME_ALT", VStr(code)), ("HTML_VALUE_ALT", VStr("")),
            ("HTML_VALUE", VStr(v)), ("VALUE", if Truthy(t) then VStr(UcFirst(t)) else VNull),
            ("SORT", VInt(sort)), ("UPPER", if Truthy(t) then VStr(Upper(t)) else VNull), ("FLAG", VInt(1)),
            ("URL_ID", VStr(v)), ("ELEMENT_COUNT", c)])
  {
    assert Empty(VStr(t)) <==> !Truthy(t);
  }

  lemma {:induction false} BucketEntryUnder(property: Property, code: string, aggregatedValues: Value, i: nat,
                         v: string, t: string, c: Value)
    requires NoDupKeys(Buckets(aggregatedValues, code)) && i < |Buckets(aggregatedValues, code)|
    requires Field(Buckets(aggregatedValues, code)[i].1, "key") == VStr(v + "||" + t)
    requires !Contains(v, "||") && !Contains(t, "||") && (v == [] || v[|v| - 1] != '|')
    requires DocCountOf(Buckets(aggregatedValues, code)[i].1) == c && c != VNull
    requires forall j :: i < j < |Buckets(aggregatedValues, code)| ==>
      StrOf(ValuePart(Buckets(aggregatedValues, code)[j].1)) != v
    ensures NestedValues(property, code, aggregatedValues).Some?
    ensures Get(NestedValues(property, code, aggregatedValues).value, v) ==
      Some(BucketEntry(ValueItem(ControlName(property), code, VStr(v), VStr(t), 4 + 2 * i, c)))
  {
    var buckets := Buckets(aggregatedValues, code);
    BucketParts(buckets[i].1, v, t);
    FilledBucket(property, code, buckets, i, v, t, c);
  }

  lemma {:induction false} FilledBucket(property: Property, code: string, buckets: OMap<Value>, i: nat,
                     v: string, t: string, c: Value)
    requires NoDupKeys(buckets) && i < |buckets|
    requires ValuePart(buckets[i].1) == VStr(v) && TitlePart(buckets[i].1) == VStr(t)
    requires DocCountOf(buckets[i].1) == c && c != VNull
    requires forall j :: i < j < |buckets| ==> StrOf(ValuePart(buckets[j].1)) != v
    ensures var vs := Project(buckets, ValuePart);
      var fill := FillUpTo(property, code, Project(buckets, DocCountOf), Project(buckets, TitlePart), vs, |vs|);
      fill.Some? && Get(fill.value, v) == Some(BucketEntry(ValueItem(ControlName(property), code, VStr(v), VStr(t), 4 + 2 * i, c)))
  {
    var vs := Project(buckets, ValuePart);
    var counts := Project(buckets, DocCountOf);
    var titles := Project(buckets, TitlePart);
    ProjectedBucket(buckets, ValuePart, DocCountOf, TitlePart, i, v, t, c);
    FillEntry(property, code, counts, titles, vs, |vs|, i);
  }

  /** The `i`-th bucket's raw value, title and count as the fill loop reads them from the
      projections, when no later bucket has the same raw value. */
  lemma ProjectedBucket(buckets: OMap<Value>, value: Value -> Value, count: Value -> Value, title: Value -> Value,
                        i: nat, v: string, t: string, c: Value)
    requires NoDupKeys(buckets) && i < |buckets|
    requires value(buckets[i].1) == VStr(v) && title(buckets[i].1) == VStr(t)
    requires count(buckets[i].1) == c && c != VNull
    requires forall j :: i < j < |buckets| ==> StrOf(value(buckets[j].1)) != v
    ensures i < |Project(buckets, value)| && Project(buckets, value)[i] == (buckets[i].0, VStr(v))
    ensures forall j :: i < j < |Project(buckets, value)| ==> StrOf(Project(buckets, value)[j].1) != v
    ensures CountUpTo(Project(buckets, count), Project(buckets, value), i + 1) == c
    ensures TitleFor(Project(buckets, title), Project(buckets, value)[i]) == VStr(t)
  {
    var vs := Project(buckets, value);
    var key := buckets[i].0;
    assert Get(Project(buckets, count), key) == Some(c) && Get(Project(buckets, title), key) == Some(VStr(t)) by {
      assert forall j :: i < j < |buckets| ==> buckets[j].0 != key;
      ProjectGet(buckets, count, i);
      ProjectGet(buckets, title, i);
    }
    ProjectLength(buckets, value);
    ProjectAt(buckets, value, i);
    forall j | i < j < |vs| ensures StrOf(vs[j].1) != v {
      ProjectAt(buckets, value, j);
    }
    LookupsAt(Project(buckets, count), Project(buckets, title), vs, i, c, VStr(t));
  }

  /** The count carried to, and the title of, the `i`-th bucket when both are set under its key. */
  lemma LookupsAt(counts: OMap<Value>, titles: OMap<Value>, values: OMap<Value>, i: nat, c: Value, t: Value)
    requires i < |values| && c != VNull && t != VNull
    requires Get(counts, values[i].0) == Some(c) && Get(titles, values[i].0) == Some(t)
    ensures CountUpTo(counts, values, i + 1) == c && TitleFor(titles, values[i]) == t
  {
  }

  /** `values` is the decoded `VALUES`, reordered by the `uasort` comparator. */
  ghost predicate SortedDecoding(property: Property, code: string, aggregatedValues: Value,
                                 natcmp: (string, string) -> int, values: OMap<Item>) {
    NestedValues(property, code, aggregatedValues).Some?
    && multiset(values) == multiset(NestedValues(property, code, aggregatedValues).value)
    && AdjSorted(values, Comparator(natcmp))
  }

  /** The per-bucket document counts, raw values and titles, under the bucket keys. */
  method SplitBuckets(buckets: OMap<Value>) returns (counts: OMap<Value>, valueBuckets: OMap<Value>, titleBuckets: OMap<Value>)
    ensures counts == Project(buckets, DocCountOf)
    ensures valueBuckets == Project(buckets, ValuePart)
    ensures titleBuckets == Project(buckets, TitlePart)
  {
    counts, valueBuckets, titleBuckets := [], [], [];
    var i := 0;
    while i < |buckets|
      invariant 0 <= i <= |buckets|
      invariant counts == Project(buckets[..i], DocCountOf)
      invariant valueBuckets == Project(buckets[..i], ValuePart)
      invariant titleBuckets == Project(buckets[..i], TitlePart)
    {
      var key := buckets[i].0;
      var item := buckets[i].1;
      counts := Put(counts, key, DocCountOf(item));
      valueBuckets := Put(valueBuckets, key, ValuePart(item));
      titleBuckets := Put(titleBuckets, key, TitlePart(item));
      assert buckets[..i + 1][..i] == buckets[..i];
      i := i + 1;
    }
    assert buckets[..i] == buckets;
  }

  /** The entries ordered in place, as `uasort` does. */
  method Sorted<T(!new)>(vals: seq<T>, cmp: (T, T) -> int) returns (r: seq<T>)
    requires AntisymmetricOn(cmp)
    ensures multiset(r) == multiset(vals) && AdjSorted(r, cmp)
  {
    var a := new T[|vals|](j requires 0 <= j < |vals| => vals[j]);
    assert a[..] == vals;
    SortValues(a, cmp);
    r := a[..];
  }

  /** `parseNestedResult`: the bucket entries, then ordered by their shown value. */
  method ParseNestedResult(property: Property, code: string, aggregatedValues: Value,
                           natcmp: (string, string) -> int) returns (r: Property, values: OMap<Item>)
    requires NestedOk(property, code, aggregatedValues)
    requires Antisymmetric(natcmp)
    ensures SortedDecoding(property, code, aggregatedValues, natcmp, values)
    ensures r == Output(property, Some(values))
  {
    var buckets := Buckets(aggregatedValues, code);
    var counts, valueBuckets, titleBuckets := SplitBuckets(buckets);
    var filled := GetDataByBuckets(property, code, counts, valueBuckets, titleBuckets);
    NestedValuesPresent(property, code, aggregatedValues);
    ComparatorAntisymmetric(natcmp);
    values := Sorted(filled.value, Comparator(natcmp));
    r := Output(property, Some(values));
  }

  // ------------------------------------------------------------- ordering

  /** The `uasort` comparator: equal shown values compare equal, otherwise the values are
      compared lower-cased by `natcmp` (the environment's natural case-insensitive order). */
  function ItemCmp(natcmp: (string, string) -> int, x: (string, Item), y: (string, Item)): int {
    if Display(x.1) == Display(y.1) then 0
    else natcmp(Lower(StrOf(Display(x.1))), Lower(StrOf(Display(y.1))))
  }

  /** What every comparison function promises: swapping the arguments flips the sign. */
  ghost predicate Antisymmetric(natcmp: (string, string) -> int) {
    forall s, t :: natcmp(s, t) > 0 ==> natcmp(t, s) < 0
  }

  ghost predicate AntisymmetricOn<T(!new)>(cmp: (T, T) -> int) {
    forall x, y :: cmp(x, y) > 0 ==> cmp(y, x) < 0
  }

  /** The comparator `uasort` is given, on (key, entry) pairs. */
  function Comparator(natcmp: (string, string) -> int): ((string, Item), (string, Item)) -> int {
    (x: (string, Item), y: (string, Item)) => ItemCmp(natcmp, x, y)
  }

  lemma ComparatorAntisymmetric(natcmp: (string, string) -> int)
    requires Antisymmetric(natcmp)
    ensures AntisymmetricOn(Comparator(natcmp))
  {
    forall x: (string, Item), y: (string, Item) | Comparator(natcmp)(x, y) > 0
      ensures Comparator(natcmp)(y, x) < 0
    {
      assert Display(x.1) != Display(y.1);
    }
  }

  /** Every element is in order with the next one. */
  predicate AdjSorted<T>(s: seq<T>, cmp: (T, T) -> int) {
    forall k :: 0 <= k < |s| - 1 ==> cmp(s[k], s[k + 1]) <= 0
  }

  /** `uasort`: the same elements, each in order with the next (keys travel with their
      entries, as the elements are the pairs). */
  method SortValues<T(!new)>(a: array<T>, cmp: (T, T) -> int)
    requires AntisymmetricOn(cmp)
    modifies a
    ensures multiset(a[..]) == multiset(old(a[..]))
    ensures AdjSorted(a[..], cmp)
  {
    var i := 0;
    while i < a.Length
      invariant 0 <= i <= a.Length
      invariant multiset(a[..]) == multiset(old(a[..]))
      invariant AdjSorted(a[..i], cmp)
    {
      Insert(a, i, cmp);
      i := i + 1;
    }
    assert a[..a.Length] == a[..];
  }

  /** Moves `a[i]` left past every greater element of the sorted `a[..i]`. */
  method Insert<T(!new)>(a: array<T>, i: nat, cmp: (T, T) -> int)
    requires i < a.Length && AntisymmetricOn(cmp) && AdjSorted(a[..i], cmp)
    modifies a
    ensures multiset(a[..]) == multiset(old(a[..]))
    ensures AdjSorted(a[..i + 1], cmp)
  {
    var j := i;
    while j > 0 && cmp(a[j - 1], a[j]) > 0
      invariant 0 <= j <= i
      invariant multiset(a[..]) == multiset(old(a[..]))
      invariant AdjSorted(a[..j] + a[j + 1..i + 1], cmp)
      invariant j < i ==> cmp(a[j], a[j + 1]) <= 0
    {
      ghost var s := a[..];
      a[j - 1], a[j] := a[j], a[j - 1];
      assert a[..] == s[j - 1 := s[j]][j := s[j - 1]];
      SwapStep(s, a[..], j, i, cmp);
      j := j - 1;
    }
    InsertDone(a[..], i, j, cmp);
  }

  /** Swapping `s[j - 1]` and `s[j]` keeps the elements and, leaving out the moved one, the
      order of the rest. */
  lemma SwapKeeps<T>(s: seq<T>, j: nat, i: nat)
    requires 0 < j <= i < |s|
    ensures var t := s[j - 1 := s[j]][j := s[j - 1]];
      t[..j - 1] + t[j..i + 1] == s[..j] + s[j + 1..i + 1] && multiset(t) == multiset(s)
  {
    var t := s[j - 1 := s[j]][j := s[j - 1]];
    assert t[..j - 1] == s[..j - 1];
    assert t[j + 1..i + 1] == s[j + 1..i + 1];
    assert t[j..i + 1] == [s[j - 1]] + s[j + 1..i + 1];
    assert s[..j] == s[..j - 1] + [s[j - 1]];
  }

  /** One swap of the insertion loop keeps its invariants, one place further left. */
  lemma SwapStep<T(!new)>(s: seq<T>, t: seq<T>, j: nat, i: nat, cmp: (T, T) -> int)
    requires 0 < j <= i < |s| && AntisymmetricOn(cmp)
    requires AdjSorted(s[..j] + s[j + 1..i + 1], cmp)
    requires cmp(s[j - 1], s[j]) > 0
    requires t == s[j - 1 := s[j]][j := s[j - 1]]
    ensures multiset(t) == multiset(s)
    ensures AdjSorted(t[..j - 1] + t[j..i + 1], cmp)
    ensures cmp(t[j - 1], t[j]) <= 0
  {
    SwapKeeps(s, j, i);
  }

  /** When the insertion loop stops, the first `i + 1` elements are sorted. */
  lemma InsertDone<T>(s: seq<T>, i: nat, j: nat, cmp: (T, T) -> int)
    requires j <= i < |s|
    requires AdjSorted(s[..j] + s[j + 1..i + 1], cmp)
    requires j > 0 ==> cmp(s[j - 1], s[j]) <= 0
    requires j < i ==> cmp(s[j], s[j + 1]) <= 0
    ensures AdjSorted(s[..i + 1], cmp)
  {
    var u := s[..i + 1];
    assert u[..j] + u[j + 1..] == s[..j] + s[j + 1..i + 1];
    InsertedSorted(u, j, cmp);
  }

  lemma InsertedSorted<T>(s: seq<T>, j: nat, cmp: (T, T) -> int)
    requires j < |s|
    requires AdjSorted(s[..j] + s[j + 1..], cmp)
    requires j > 0 ==> cmp(s[j - 1], s[j]) <= 0
    requires j < |s| - 1 ==> cmp(s[j], s[j + 1]) <= 0
    ensures AdjSorted(s, cmp)
  {
    var c := s[..j] + s[j + 1..];
    forall k | 0 <= k < |s| - 1
      ensures cmp(s[k], s[k + 1]) <= 0
    {
      if k + 1 < j {
        assert c[k] == s[k] && c[k + 1] == s[k + 1];
      } else if k > j {
        assert c[k - 1] == s[k] && c[k] == s[k + 1];
      }
    }
  }

  // ------------------------------------------------------------- the resource

  /** The path `toArray` takes for one property row. */
  datatype Route =
    | RangeRoute(code: string)                   // numeric, not an offer property: min/max
    | KeptRoute                                  // no aggregation for it, not an offer property
    | NestedRoute(code: string, values: Value)   // terms buckets under `code`

  function RouteOf(property: Property, data: Value, offerIBlockId: int): Route {
    var code := CodeOf(property);
    var isOffer := IsOfferProperty(property, offerIBlockId);
    if At(property, "PROPERTY_TYPE") == VStr("N") && !isOffer then RangeRoute(code)
    else if Empty(Field(data, code)) && !isOffer then KeptRoute
    else if isOffer then
      var o := "offers." + code;
      NestedRoute(o, Field(Field(Field(data, o), o), o))
    else NestedRoute(code, Field(Field(data, code), code))
  }

  /** What the `toArray` closure demands of a row on its path: `VALUES` can be written, `array_pop`
      gets arrays, and a nested row ends with a `VALUES` array for `uasort`. */
  predicate Decodable(property: Property, data: Value, offerIBlockId: int) {
    match RouteOf(property, data, offerIBlockId)
    case RangeRoute(code) => ValuesSlotOk(property) && RangeOk(data, code + "_to") && RangeOk(data, code + "_from")
    case KeptRoute => true
    case NestedRoute(code, values) => NestedOk(property, code, values)
  }

  /** `out` is the row `toArray` yields for `property`. */
  ghost predicate Decoded(property: Property, data: Value, offerIBlockId: int, natcmp: (string, string) -> int,
                          out: Property) {
    match RouteOf(property, data, offerIBlockId)
    case RangeRoute(code) => out == ParseRangeResult(property, code, data)
    case KeptRoute => out == property
    case NestedRoute(code, values) =>
      exists vs :: SortedDecoding(property, code, values, natcmp, vs) && out == Output(property, Some(vs))
  }

  /** The closure `toArray` maps over the rows. */
  method DecodeProperty(property: Property, data: Value, offerIBlockId: int, natcmp: (string, string) -> int)
    returns (out: Property)
    requires Decodable(property, data, offerIBlockId) && Antisymmetric(natcmp)
    ensures Decoded(property, data, offerIBlockId, natcmp, out)
  {
    match RouteOf(property, data, offerIBlockId)
    case RangeRoute(code) =>
      out := ParseRangeResult(property, code, data);
    case KeptRoute =>
      out := property;
    case NestedRoute(code, values) =>
      var vs;
      out, vs := ParseNestedResult(property, code, values, natcmp);
  }

  /** `$sources['aggregations']['all_products']`. */
  function AllProductsOf(sources: OMap<Value>): Value {
    Field(At(sources, "aggregations"), "all_products")
  }

  /** `$sources['hits']['total']['value'] ?? 0`. */
  function TotalOf(sources: OMap<Value>): Value {
    var total := Field(Field(At(sources, "hits"), "total"), "value");
    if total != VNull then total else VInt(0)
  }

  /** `array_map` of the closure over the rows: keys kept, each row decoded. */
  method DecodeAll(properties: OMap<Property>, data: Value, offerIBlockId: int, natcmp: (string, string) -> int)
    returns (items: OMap<Property>)
    requires Antisymmetric(natcmp)
    requires forall i :: 0 <= i < |properties| ==> Decodable(properties[i].1, data, offerIBlockId)
    ensures |items| == |properties|
    ensures forall i :: 0 <= i < |items| ==>
      items[i].0 == properties[i].0 && Decoded(properties[i].1, data, offerIBlockId, natcmp, items[i].1)
  {
    items := [];
    var i := 0;
    while i < |properties|
      invariant 0 <= i <= |properties| && |items| == i
      invariant forall j :: 0 <= j < i ==>
        items[j].0 == properties[j].0 && Decoded(properties[j].1, data, offerIBlockId, natcmp, items[j].1)
    {
      var out := DecodeProperty(properties[i].1, data, offerIBlockId, natcmp);
      RowsSnoc(properties, items, out, (p, o) => Decoded(p, data, offerIBlockId, natcmp, o));
      items := items + [(properties[i].0, out)];
      i := i + 1;
    }
  }

  /** Appending a row that relates to the next property keeps the rows in step with the
      properties. */
  lemma RowsSnoc(properties: OMap<Property>, items: OMap<Property>, out: Property,
                 rel: (Property, Property) -> bool)
    requires |items| < |properties|
    requires forall j :: 0 <= j < |items| ==> items[j].0 == properties[j].0 && rel(properties[j].1, items[j].1)
    requires rel(properties[|items|].1, out)
    ensures forall j :: 0 <= j < |items| + 1 ==>
      (items + [(properties[|items|].0, out)])[j].0 == properties[j].0 &&
      rel(properties[j].1, (items + [(properties[|items|].0, out)])[j].1)
  {
    var next := items + [(properties[|items|].0, out)];
    forall j | 0 <= j < |items| + 1
      ensures next[j].0 == properties[j].0 && rel(properties[j].1, next[j].1)
    {
      if j < |items| {
        assert next[j] == items[j];
      }
    }
  }

  function Rows(items: OMap<Property>): OMap<Value> {
    seq(|items|, i requires 0 <= i < |items| => (items[i].0, VMap(items[i].1)))
  }

  class CatalogAggregationResource {
    const properties: OMap<Property>
    const config: IC.IndexConfig

    constructor (properties: OMap<Property>, config: IC.IndexConfig)
      ensures this.properties == properties && this.config == config
    {
      this.properties := properties;
      this.config := config;
    }

    /** `toArray`: no facets without `all_products`; otherwise the hit count and every row
        decoded on its own path, under its own key. The offer iblock id is read for every
        row, so it must be set once there is a row to decode. */
    method ToArray(sources: OMap<Value>, natcmp: (string, string) -> int) returns (r: Value, items: OMap<Property>)
      requires Antisymmetric(natcmp)
      requires !Empty(AllProductsOf(sources)) && properties != [] ==> config.offerIBlockId.Some?
      requires !Empty(AllProductsOf(sources)) && config.offerIBlockId.Some? ==>
        forall i :: 0 <= i < |properties| ==>
          Decodable(properties[i].1, AllProductsOf(sources), config.offerIBlockId.value)
      ensures Empty(AllProductsOf(sources)) ==> r == VMap([]) && items == []
      ensures !Empty(AllProductsOf(sources)) ==>
        r == VMap([("count", TotalOf(sources)), ("items", VMap(Rows(items)))])
      ensures !Empty(AllProductsOf(sources)) ==> |items| == |properties|
      ensures !Empty(AllProductsOf(sources)) ==>
        forall i :: 0 <= i < |items| ==>
          items[i].0 == properties[i].0 &&
          Decoded(properties[i].1, AllProductsOf(sources), config.offerIBlockId.value, natcmp, items[i].1)
    {
      var data := AllProductsOf(sources);
      items := [];
      if Empty(data) {
        r := VMap([]);
        return;
      }
      if properties != [] {
        items := DecodeAll(properties, data, config.offerIBlockId.value, natcmp);
      }
      r := VMap([("count", TotalOf(sources)), ("items", VMap(Rows(items)))]);
    }
  }
}
