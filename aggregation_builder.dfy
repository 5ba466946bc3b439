/** Builds one filter aggregation per facet field. Each one counts the facet's values under
    the current filter with that facet's own keys removed, so a facet never narrows itself. */
module AggregationBuilder {
  import opened Php
  import opened TypeEnum
  import opened Mapable
  import IC = IndexConfig
  import SB = SearchBuilder
  import BCG = BitrixConfigGenerator

  const RangeBottomName := "from"
  const RangeTopName := "to"

  /** An aggregation body, with its name. */
  datatype Agg =
    | MinAgg(name: string, field: string)
    | MaxAgg(name: string, field: string)
    | TermsAgg(name: string, field: string, size: int)
    | NestedAgg(name: string, path: string, subs: seq<Agg>)
    | FilterAgg(name: string, must: seq<SB.Query>, sub: Agg)

  /** The values of a name-keyed array, in order. */
  function Values(m: OMap<Agg>): (r: seq<Agg>)
    ensures |r| == |m| && forall i :: 0 <= i < |m| ==> r[i] == m[i].1
  {
    if m == [] then [] else [m[0].1] + Values(m[1..])
  }

  // ------------------------------------------------------------- one field

  /** The aggregations of a field under the name `key`: min and max for numbers, a nested
      aggregation over the sub-fields for nested fields, and terms (size 1000) otherwise. */
  function PrepareAggregateType(element: Mapable, key: string): (r: OMap<Agg>)
    ensures ParseType(element.fieldType) in {Some(Integer), Some(Float)} ==>
      r == [(key + "_" + RangeBottomName, MinAgg(key + "_" + RangeBottomName, key)),
            (key + "_" + RangeTopName, MaxAgg(key + "_" + RangeTopName, key))]
    ensures ParseType(element.fieldType) == Some(Nested) ==>
      |r| == 1 && r[0].0 == key && r[0].1.NestedAgg? && r[0].1.name == key && r[0].1.path == key
    ensures ParseType(element.fieldType) !in {Some(Integer), Some(Float), Some(Nested)} ==>
      r == [(key, TermsAgg(key, key, 1000))]
    decreases element, 1
  {
    match ParseType(element.fieldType)
    case Some(Integer) => NumberAggs(key)
    case Some(Float) => NumberAggs(key)
    case Some(Nested) =>
      var subs := if element.properties.PropList? then SubAggs(element, key, |element.properties.items|) else [];
      [(key, NestedAgg(key, key, subs))]
    case _ => [(key, TermsAgg(key, key, 1000))]
  }

  /** A nested field gives one nested aggregation, with name and path `key`, over the
      sub-aggregations of all its sub-fields. */
  lemma PrepareNested(element: Mapable, key: string)
    requires ParseType(element.fieldType) == Some(Nested)
    ensures PrepareAggregateType(element, key) ==
      [(key, NestedAgg(key, key, if element.properties.PropList? then SubAggs(element, key, |element.properties.items|) else []))]
  {
  }

  function NumberAggs(key: string): OMap<Agg> {
    [(key + "_" + RangeBottomName, MinAgg(key + "_" + RangeBottomName, key)),
     (key + "_" + RangeTopName, MaxAgg(key + "_" + RangeTopName, key))]
  }

  /** `in_array($name, ['title', 'value'], true)`: the sub-fields a nested aggregation skips. */
  predicate TitleOrValue(name: string) {
    name in ["title", "value"]
  }

  /** The sub-aggregations of a nested field from its first `n` sub-fields: each sub-field
      other than `title` and `value` contributes its own aggregations under `key.<name>`. */
  function SubAggs(element: Mapable, key: string, n: nat): seq<Agg>
    requires element.properties.PropList? && n <= |element.properties.items|
    decreases element, 0, n
  {
    if n == 0 then []
    else
      SubAggs(element, key, n - 1) + Contribution(element.properties.items[n - 1], key)
  }

  /** What one sub-field adds: nothing for `title` and `value`, otherwise its own aggregations
      under `key.<name>`. */
  function Contribution(item: Mapable, key: string): seq<Agg>
    decreases item, 2
  {
    if TitleOrValue(item.name) then [] else Values(PrepareAggregateType(item, key + "." + item.name))
  }

  /** Every aggregation of a field is named after the field: its name starts with `key`. */
  lemma PrepareNames(element: Mapable, key: string)
    ensures var r := PrepareAggregateType(element, key);
      forall i :: 0 <= i < |r| ==> r[i].1.name == r[i].0 && key <= r[i].0
  {
    var r := PrepareAggregateType(element, key);
    assert key <= key + "_" + RangeBottomName && key <= key + "_" + RangeTopName;
  }

  /** Every sub-aggregation of a nested field is named after one of its sub-fields, never
      after `title` or `value`. */
  lemma SubAggsNames(element: Mapable, key: string, n: nat)
    requires element.properties.PropList? && n <= |element.properties.items|
    ensures forall a :: a in SubAggs(element, key, n) ==>
      exists c :: c in element.properties.items[..n] && !TitleOrValue(c.name) && key + "." + c.name <= a.name
  {
    forall a | a in SubAggs(element, key, n)
      ensures exists c :: c in element.properties.items[..n] && !TitleOrValue(c.name) && key + "." + c.name <= a.name
    {
      var i := SubAggNamedAfter(element, key, n, a);
      assert element.properties.items[..n][i] == element.properties.items[i];
      assert NamedAfter(element.properties.items[i], key, a);
    }
  }

  /** The sub-field a sub-aggregation comes from: its index among the first `n`. */
  lemma {:induction false} SubAggNamedAfter(element: Mapable, key: string, n: nat, a: Agg) returns (i: nat)
    requires element.properties.PropList? && n <= |element.properties.items|
    requires a in SubAggs(element, key, n)
    ensures i < n && NamedAfter(element.properties.items[i], key, a)
  {
    SubAggsSplit(element, key, n, a);
    if NamedAfter(element.properties.items[n - 1], key, a) {
      i := n - 1;
    } else {
      i := SubAggNamedAfter(element, key, n - 1, a);
    }
  }

  /** `a` is named under `key.<name>` of a sub-field that is neither `title` nor `value`. */
  predicate NamedAfter(c: Mapable, key: string, a: Agg) {
    !TitleOrValue(c.name) && key + "." + c.name <= a.name
  }

  /** A sub-aggregation of the first `n` sub-fields is one of the first `n - 1`, or comes from
      the `n`-th. */
  lemma SubAggsSplit(element: Mapable, key: string, n: nat, a: Agg)
    requires element.properties.PropList? && n <= |element.properties.items|
    requires a in SubAggs(element, key, n)
    ensures 0 < n && (a in SubAggs(element, key, n - 1) || NamedAfter(element.properties.items[n - 1], key, a))
  {
    var item := element.properties.items[n - 1];
    var sub := key + "." + item.name;
    var tail := Contribution(item, key);
    assert SubAggs(element, key, n) == SubAggs(element, key, n - 1) + tail;
    if a in tail {
      PrepareValuesPrefixed(item, sub);
    }
  }

  /** Every aggregation a field produces has a name starting with the field's key. */
  lemma PrepareValuesPrefixed(element: Mapable, key: string)
    ensures forall a :: a in Values(PrepareAggregateType(element, key)) ==> key <= a.name
  {
    PrepareNames(element, key);
    ValuesPrefixed(PrepareAggregateType(element, key), key);
  }

  /** Conversely, every sub-field other than `title` and `value` contributes all of its own
      aggregations, named under `key.<name>`. */
  lemma SubAggsComplete(element: Mapable, key: string, n: nat)
    requires element.properties.PropList? && n <= |element.properties.items|
    ensures forall i, a :: 0 <= i < n && !TitleOrValue(element.properties.items[i].name)
                           && a in Values(PrepareAggregateType(element.properties.items[i],
                                                               key + "." + element.properties.items[i].name))
                           ==> a in SubAggs(element, key, n)
  {
    var items := element.properties.items;
    forall i, a | 0 <= i < n && !TitleOrValue(items[i].name)
                  && a in Values(PrepareAggregateType(items[i], key + "." + items[i].name))
      ensures a in SubAggs(element, key, n)
    {
      SubAggsHas(element, key, n, i, a);
    }
  }

  /** The `i`-th sub-field's aggregations are among the sub-aggregations of the first `n`. */
  lemma {:induction false} SubAggsHas(element: Mapable, key: string, n: nat, i: nat, a: Agg)
    requires element.properties.PropList? && i < n <= |element.properties.items|
    requires !TitleOrValue(element.properties.items[i].name)
    requires a in Values(PrepareAggregateType(element.properties.items[i], key + "." + element.properties.items[i].name))
    ensures a in SubAggs(element, key, n)
  {
    var items := element.properties.items;
    var last := items[n - 1];
    var tail := Contribution(last, key);
    assert SubAggs(element, key, n) == SubAggs(element, key, n - 1) + tail;
    if i < n - 1 {
      SubAggsHas(element, key, n - 1, i, a);
      assert a in SubAggs(element, key, n - 1);
    } else {
      assert a in tail;
    }
  }

  /** A nested field of the generated shape (`title`, `value`, `computed`, `keyId`, all
      keywords) aggregates the terms of `key.computed` and of `key.keyId`, in that order. */
  lemma GeneratedNestedAggs(element: Mapable, key: string)
    requires ParseType(element.fieldType) == Some(Nested) && element.properties == PropList(BCG.NestedShape())
    ensures PrepareAggregateType(element, key) ==
      [(key, NestedAgg(key, key, [TermsAgg(key + ".computed", key + ".computed", 1000),
                                   TermsAgg(key + ".keyId", key + ".keyId", 1000)]))]
  {
    var ps := BCG.NestedShape();
    ParseTypeName(Keyword);
    var c, k := key + ".computed", key + ".keyId";
    assert PrepareAggregateType(ps[2], c) == [(c, TermsAgg(c, c, 1000))];
    assert PrepareAggregateType(ps[3], k) == [(k, TermsAgg(k, k, 1000))];
    assert Values([(c, TermsAgg(c, c, 1000))]) == [TermsAgg(c, c, 1000)];
    assert Values([(k, TermsAgg(k, k, 1000))]) == [TermsAgg(k, k, 1000)];
    assert !TitleOrValue(ps[2].name) && !TitleOrValue(ps[3].name);
    assert key + "." + ps[2].name == c && key + "." + ps[3].name == k;
    assert SubAggs(element, key, 1) == [];
    assert SubAggs(element, key, 2) == [];
    assert SubAggs(element, key, 3) == [TermsAgg(c, c, 1000)];
    assert SubAggs(element, key, 4) == [TermsAgg(c, c, 1000), TermsAgg(k, k, 1000)];
  }

  /** The values of aggregations named after `key` are all named after `key`. */
  lemma ValuesPrefixed(m: OMap<Agg>, key: string)
    requires forall i :: 0 <= i < |m| ==> m[i].1.name == m[i].0 && key <= m[i].0
    ensures forall a :: a in Values(m) ==> key <= a.name
  {
  }

  /** The flag of a full mapping element; a sub-property has none. */
  predicate HasInFilter(m: Mapable) {
    m.element.Some? && m.element.value.hasInFilter
  }

  /** The aggregations of an offers sub-field: a nested aggregation on `offers` holding a
      nested aggregation on `offers.<name>` that holds the aggregations of its sub-fields
      (only `computed` when the field is in the filter). */
  function PrepareOfferAggregateType(element: Mapable): (r: OMap<Agg>)
    requires IsElement(element)
    ensures |r| == 1 && r[0].0 == "offers." + element.name
    ensures r[0].1 == NestedAgg("offers." + element.name, "offers",
      [NestedAgg("offers." + element.name, "offers." + element.name, OfferSubAggs(element, Children(element)))])
  {
    var offerKey := "offers." + element.name;
    [(offerKey, NestedAgg(offerKey, "offers", [NestedAgg(offerKey, offerKey, OfferSubAggs(element, Children(element)))]))]
  }

  function OfferSubAggs(element: Mapable, items: seq<Mapable>): seq<Agg>
    requires IsElement(element)
  {
    if items == [] then []
    else
      var item := items[|items| - 1];
      var offerKey := "offers." + element.name;
      OfferSubAggs(element, items[..|items| - 1]) +
        (if HasInFilter(element) && item.name != "computed" then []
         else Values(PrepareAggregateType(item, offerKey + "." + item.name)))
  }

  /** For a field in the filter only the `computed` sub-fields contribute. */
  lemma {:induction false} OfferSubAggsComputed(element: Mapable, items: seq<Mapable>)
    requires IsElement(element) && HasInFilter(element)
    ensures OfferSubAggs(element, items) == OfferSubAggs(element, Computed(items))
  {
    if items != [] {
      var init := items[..|items| - 1];
      var item := items[|items| - 1];
      OfferSubAggsComputed(element, init);
      if item.name == "computed" {
        var c := Computed(items);
        assert c == Computed(init) + [item];
        assert c[..|c| - 1] == Computed(init);
      } else {
        assert Computed(items) == Computed(init);
        assert OfferSubAggs(element, items) == OfferSubAggs(element, init) + [];
      }
    }
  }

  /** The sub-fields named `computed`. */
  function Computed(items: seq<Mapable>): (r: seq<Mapable>)
    ensures forall p :: p in r ==> p in items && p.name == "computed"
  {
    if items == [] then []
    else
      var item := items[|items| - 1];
      Computed(items[..|items| - 1]) + (if item.name == "computed" then [item] else [])
  }

  // ------------------------------------------------------------- facet fields

  /** The elements in the filter, in order. */
  function InFilter(items: seq<Mapable>): (r: seq<Mapable>)
    ensures forall p :: p in r <==> p in items && HasInFilter(p)
  {
    if items == [] then []
    else
      var item := items[|items| - 1];
      InFilter(items[..|items| - 1]) + (if HasInFilter(item) then [item] else [])
  }

  /** The first element named `offers`, if any. */
  function FirstOffers(items: seq<Mapable>): (r: Option<Mapable>)
    ensures r.Some? ==> r.value in items && r.value.name == "offers"
    ensures r.Some? ==> exists i :: 0 <= i < |items| && items[i] == r.value
                                    && forall j :: 0 <= j < i ==> items[j].name != "offers"
    ensures r.None? ==> forall p :: p in items ==> p.name != "offers"
  {
    if items == [] then None
    else if items[0].name == "offers" then Some(items[0])
    else
      var rest := FirstOffers(items[1..]);
      if rest.Some? then
        var i :| 0 <= i < |items| - 1 && items[1..][i] == rest.value
                 && forall j :: 0 <= j < i ==> items[1..][j].name != "offers";
        assert items[i + 1] == rest.value;
        assert forall j :: 0 <= j < i + 1 ==> items[j].name != "offers" by {
          forall j | 0 <= j < i + 1 ensures items[j].name != "offers" {
            if j > 0 { assert items[j] == items[1..][j - 1]; }
          }
        }
        rest
      else rest
  }

  /** The facet fields: the top-level fields in the filter, then the filter sub-fields of the
      first `offers` element, keyed by name. */
  function FilterFields(items: seq<Mapable>): OMap<Mapable> {
    var top := PutAll([], InFilter(items));
    match FirstOffers(items)
    case None => top
    case Some(offers) => PutAll(top, InFilter(Children(offers)))
  }

  /** A facet name maps to the last offers sub-field in the filter with that name, and
      otherwise to the last top-level field in the filter with it. */
  lemma FilterFieldsGet(items: seq<Mapable>, k: string)
    ensures var subs := if FirstOffers(items).Some? then InFilter(Children(FirstOffers(items).value)) else [];
      Get(FilterFields(items), k) ==
        if LastNamed(subs, k).Some? then LastNamed(subs, k) else LastNamed(InFilter(items), k)
  {
  }

  /** Every facet field is in the filter. */
  lemma FilterFieldsInFilter(items: seq<Mapable>, k: string)
    requires Get(FilterFields(items), k).Some?
    ensures HasInFilter(Get(FilterFields(items), k).value)
  {
    FilterFieldsGet(items, k);
  }

  // ------------------------------------------------------------- build

  /** The filter map a facet's own aggregation uses: without the facet's key, or, when that
      is not set, without its `_to` and `_from` bounds; an offer facet also drops its
      `offers_` key. */
  function Exclude(params: OMap<Value>, name: string, isOffer: bool): OMap<Value> {
    var own := if IsSet(params, name) then Remove(params, name)
               else Remove(Remove(params, name + "_to"), name + "_from");
    if isOffer then Remove(own, "offers_" + name) else own
  }

  /** The facet's own keys are gone and every other key keeps its value. */
  lemma ExcludeKeys(params: OMap<Value>, name: string, isOffer: bool)
    ensures var r := Exclude(params, name, isOffer);
      (forall k :: k != name && k != name + "_to" && k != name + "_from" && k != "offers_" + name ==>
         Get(r, k) == Get(params, k))
      && (IsSet(params, name) ==> Get(r, name).None?)
      && (!IsSet(params, name) ==> Get(r, name + "_to").None? && Get(r, name + "_from").None?)
      && (isOffer ==> Get(r, "offers_" + name).None?)
      && (!isOffer && IsSet(params, name) ==> forall k :: k != name ==> Get(r, k) == Get(params, k))
  {
  }

  /** The selected value of a facet does not change its own counts: any other non-null value
      in its place yields the same aggregations. */
  lemma OwnValueIgnored(item: Mapable, offerIBlockId: int, fields: OMap<Mapable>, offers: OMap<Mapable>,
                        requestSort: Value, params: OMap<Value>, v: Value)
    requires IsSet(params, item.name) && v != VNull
    ensures FacetAggs(item, offerIBlockId, fields, offers, requestSort, Put(params, item.name, v)) ==
            FacetAggs(item, offerIBlockId, fields, offers, requestSort, params)
  {
    RemovePut(params, item.name, v);
    var isOffer := IsOfferField(item, offerIBlockId);
    assert Exclude(Put(params, item.name, v), item.name, isOffer) == Exclude(params, item.name, isOffer);
  }

  /** Neither bound of an unselected range facet changes its own counts. */
  lemma OwnBoundIgnored(item: Mapable, offerIBlockId: int, fields: OMap<Mapable>, offers: OMap<Mapable>,
                        requestSort: Value, params: OMap<Value>, bound: string, v: Value)
    requires !IsSet(params, item.name) && bound in {"_from", "_to"}
    ensures FacetAggs(item, offerIBlockId, fields, offers, requestSort, Put(params, item.name + bound, v)) ==
            FacetAggs(item, offerIBlockId, fields, offers, requestSort, params)
  {
    var isOffer := IsOfferField(item, offerIBlockId);
    ExcludeBound(params, item.name, isOffer, bound, v);
  }

  lemma ExcludeBound(params: OMap<Value>, name: string, isOffer: bool, bound: string, v: Value)
    requires !IsSet(params, name) && bound in {"_from", "_to"}
    ensures Exclude(Put(params, name + bound, v), name, isOffer) == Exclude(params, name, isOffer)
  {
    var nf, nt := name + "_from", name + "_to";
    assert nf[|name| + 1] == 'f' && nt[|name| + 1] == 't';
    var p := Put(params, name + bound, v);
    assert |name + bound| > |name|;
    assert Get(p, name) == Get(params, name);
    if bound == "_from" {
      RemovePutOther(params, nf, nt, v);
      RemovePut(Remove(params, nt), nf, v);
    } else {
      RemovePut(params, nt, v);
    }
  }

  /** Whether a facet field belongs to the offer iblock. */
  predicate IsOfferField(item: Mapable, offerIBlockId: int) {
    item.element.Some? && item.element.value.bitrixIblockId == Some(offerIBlockId)
  }

  /** The aggregations a facet field produces. */
  function FieldAggs(item: Mapable, offerIBlockId: int): OMap<Agg> {
    if IsOfferField(item, offerIBlockId) then PrepareOfferAggregateType(item)
    else PrepareAggregateType(item, item.name)
  }

  /** One filter aggregation per produced aggregation, each filtered by the facet's own
      excluded query. */
  function Wrap(aggs: OMap<Agg>, must: seq<SB.Query>): (r: seq<Agg>)
    ensures |r| == |aggs|
    ensures forall i :: 0 <= i < |aggs| ==> r[i] == FilterAgg(aggs[i].0, must, aggs[i].1)
  {
    if aggs == [] then [] else [FilterAgg(aggs[0].0, must, aggs[0].1)] + Wrap(aggs[1..], must)
  }

  /** The filter aggregations of one facet field; None when its query cannot be built. */
  function FacetAggs(item: Mapable, offerIBlockId: int, fields: OMap<Mapable>, offers: OMap<Mapable>,
                     requestSort: Value, params: OMap<Value>): Option<seq<Agg>>
  {
    var isOffer := IsOfferField(item, offerIBlockId);
    var aggs := FieldAggs(item, offerIBlockId);
    if aggs == [] then Some([])
    else
      match SB.Clauses(fields, offers, requestSort, Exclude(params, item.name, isOffer))
      case None => None
      case Some(must) => Some(Wrap(aggs, must))
  }

  /** All filter aggregations, facet by facet in filter-field order. */
  function BuildAggs(facets: OMap<Mapable>, offerIBlockId: int, fields: OMap<Mapable>, offers: OMap<Mapable>,
                     requestSort: Value, params: OMap<Value>): Option<seq<Agg>>
  {
    if facets == [] then Some([])
    else
      match BuildAggs(facets[..|facets| - 1], offerIBlockId, fields, offers, requestSort, params)
      case None => None
      case Some(prev) =>
        match FacetAggs(facets[|facets| - 1].1, offerIBlockId, fields, offers, requestSort, params)
        case None => None
        case Some(more) => Some(prev + more)
  }

  /** The request body: `aggs.all_products` is a global aggregation holding the filter
      aggregations. */
  datatype AllProducts = AllProducts(filters: seq<Agg>)

  /** Puts the elements in the filter into `acc` by name, in order. */
  method CollectInFilter(acc: OMap<Mapable>, items: seq<Mapable>) returns (fields: OMap<Mapable>)
    ensures fields == PutAll(acc, InFilter(items))
  {
    fields := acc;
    var i := 0;
    while i < |items|
      invariant 0 <= i <= |items|
      invariant fields == PutAll(acc, InFilter(items[..i]))
    {
      CollectStep(acc, items, i);
      if HasInFilter(items[i]) {
        fields := Put(fields, items[i].name, items[i]);
      }
      i := i + 1;
    }
    assert items[..i] == items;
  }

  lemma CollectStep(acc: OMap<Mapable>, items: seq<Mapable>, i: nat)
    requires i < |items|
    ensures PutAll(acc, InFilter(items[..i + 1])) ==
      if HasInFilter(items[i]) then Put(PutAll(acc, InFilter(items[..i])), items[i].name, items[i])
      else PutAll(acc, InFilter(items[..i]))
  {
    var done := InFilter(items[..i]);
    assert items[..i + 1][..i] == items[..i];
    assert InFilter(items[..i + 1]) == done + (if HasInFilter(items[i]) then [items[i]] else []);
    if HasInFilter(items[i]) {
      assert (done + [items[i]])[..|done|] == done;
    } else {
      assert done + [] == done;
    }
  }

  class AggregationBuilder {
    const config: IC.IndexConfig
    const searchBuilder: SB.SearchBuilder
    var filterFields: OMap<Mapable>

    /** Collects the facet fields; builds its own query builder when none is given. The
        filter callbacks take only full mapping elements. */
    constructor (config: IC.IndexConfig, searchBuilder: SB.SearchBuilder?)
      requires config.mapping.Some?
      requires forall p :: p in config.mapping.value ==> IsElement(p)
      requires FirstOffers(config.mapping.value).Some? ==>
        forall p :: p in Children(FirstOffers(config.mapping.value).value) ==> IsElement(p)
      ensures this.config == config
      ensures searchBuilder != null ==> this.searchBuilder == searchBuilder
      ensures searchBuilder == null ==>
        (fresh(this.searchBuilder)
         && this.searchBuilder.fieldsArray == ByName(config.mapping.value)
         && this.searchBuilder.offersFieldsArray == SB.OffersTable(config.mapping.value))
      ensures filterFields == FilterFields(config.mapping.value)
    {
      this.config := config;
      if searchBuilder == null {
        this.searchBuilder := new SB.SearchBuilder(config);
      } else {
        this.searchBuilder := searchBuilder;
      }
      var items := config.mapping.value;
      var fields := CollectInFilter([], items);
      var offersProps := FirstOffers(items);
      if offersProps.Some? {
        fields := CollectInFilter(fields, Children(offersProps.value));
      }
      filterFields := fields;
    }

    /** One filter aggregation per aggregation of every facet field, each with the query of
        the parameters minus that facet's own keys; `requestSort` is the request's `sort`
        value. The caller's map is not changed (it is a value). */
    method Build(queryParams: OMap<Value>, requestSort: Value) returns (r: Option<AllProducts>)
      requires config.offerIBlockId.Some?
      ensures r.Some? <==> BuildAggs(filterFields, config.offerIBlockId.value, searchBuilder.fieldsArray,
                                     searchBuilder.offersFieldsArray, requestSort, queryParams).Some?
      ensures r.Some? ==> r.value.filters == BuildAggs(filterFields, config.offerIBlockId.value,
                                     searchBuilder.fieldsArray, searchBuilder.offersFieldsArray, requestSort, queryParams).value
    {
      var offerId := config.GetOfferIBlockId();
      var facets, fields, offers := filterFields, searchBuilder.fieldsArray, searchBuilder.offersFieldsArray;
      var search: seq<Agg> := [];
      var i := 0;
      while i < |facets|
        invariant 0 <= i <= |facets|
        invariant BuildAggs(facets[..i], offerId, fields, offers, requestSort, queryParams) == Some(search)
      {
        var more := AddFacet(facets[i].1, offerId, queryParams, requestSort);
        BuildStep(facets, offerId, fields, offers, requestSort, queryParams, i, search, more);
        if more.None? {
          return None;
        }
        search := search + more.value;
        i := i + 1;
      }
      assert facets[..i] == facets;
      r := Some(AllProducts(search));
    }

    /** The filter aggregations of one facet field. */
    method AddFacet(item: Mapable, offerId: int, queryParams: OMap<Value>, requestSort: Value)
      returns (more: Option<seq<Agg>>)
      ensures more == FacetAggs(item, offerId, searchBuilder.fieldsArray, searchBuilder.offersFieldsArray,
                                requestSort, queryParams)
    {
      var isOffer := IsOfferField(item, offerId);
      var aggs := if isOffer then PrepareOfferAggregateType(item) else PrepareAggregateType(item, item.name);
      var out: seq<Agg> := [];
      var j := 0;
      while j < |aggs|
        invariant 0 <= j <= |aggs|
        invariant j == 0 ==> out == []
        invariant j > 0 ==> SB.Clauses(searchBuilder.fieldsArray, searchBuilder.offersFieldsArray, requestSort,
                                       Exclude(queryParams, item.name, isOffer)).Some?
        invariant j > 0 ==> out == Wrap(aggs[..j], SB.Clauses(searchBuilder.fieldsArray, searchBuilder.offersFieldsArray,
                                       requestSort, Exclude(queryParams, item.name, isOffer)).value)
      {
        var cur := queryParams;
        if IsSet(cur, item.name) {
          cur := Remove(cur, item.name);
        } else {
          cur := Remove(cur, item.name + "_to");
          cur := Remove(cur, item.name + "_from");
        }
        if isOffer {
          cur := Remove(cur, "offers_" + item.name);
        }
        assert cur == Exclude(queryParams, item.name, isOffer);
        var must := searchBuilder.GetBoolQuery(cur, requestSort);
        if must.None? {
          return None;
        }
        WrapSnoc(aggs, j, must.value);
        out := out + [FilterAgg(aggs[j].0, must.value, aggs[j].1)];
        j := j + 1;
      }
      assert aggs[..j] == aggs;
      more := Some(out);
    }
  }

  lemma {:induction false} WrapSnoc(aggs: OMap<Agg>, j: nat, must: seq<SB.Query>)
    requires j < |aggs|
    ensures Wrap(aggs[..j + 1], must) == Wrap(aggs[..j], must) + [FilterAgg(aggs[j].0, must, aggs[j].1)]
  {
    var a := Wrap(aggs[..j + 1], must);
    var b := Wrap(aggs[..j], must) + [FilterAgg(aggs[j].0, must, aggs[j].1)];
    assert |a| == |b|;
    forall i | 0 <= i < |a| ensures a[i] == b[i] {
      if i < j { assert aggs[..j + 1][i] == aggs[..j][i]; }
    }
  }

  /** One facet of the build loop: a failing facet fails the whole build, a succeeding one
      extends the aggregations built so far. */
  lemma BuildStep(facets: OMap<Mapable>, offerIBlockId: int, fields: OMap<Mapable>, offers: OMap<Mapable>,
                  requestSort: Value, params: OMap<Value>, i: nat, search: seq<Agg>, more: Option<seq<Agg>>)
    requires i < |facets|
    requires BuildAggs(facets[..i], offerIBlockId, fields, offers, requestSort, params) == Some(search)
    requires more == FacetAggs(facets[i].1, offerIBlockId, fields, offers, requestSort, params)
    ensures more.None? ==> BuildAggs(facets, offerIBlockId, fields, offers, requestSort, params).None?
    ensures more.Some? ==> BuildAggs(facets[..i + 1], offerIBlockId, fields, offers, requestSort, params)
                           == Some(search + more.value)
  {
    if more.None? {
      BuildStepFails(facets, offerIBlockId, fields, offers, requestSort, params, i, search);
    } else {
      BuildStepExtends(facets, offerIBlockId, fields, offers, requestSort, params, i, search, more.value);
    }
  }

  lemma BuildStepFails(facets: OMap<Mapable>, offerIBlockId: int, fields: OMap<Mapable>, offers: OMap<Mapable>,
                       requestSort: Value, params: OMap<Value>, i: nat, search: seq<Agg>)
    requires i < |facets|
    requires BuildAggs(facets[..i], offerIBlockId, fields, offers, requestSort, params) == Some(search)
    requires FacetAggs(facets[i].1, offerIBlockId, fields, offers, requestSort, params).None?
    ensures BuildAggs(facets, offerIBlockId, fields, offers, requestSort, params).None?
  {
    var p := facets[..i + 1];
    assert p[..|p| - 1] == facets[..i] && p[|p| - 1] == facets[i];
    assert BuildAggs(p, offerIBlockId, fields, offers, requestSort, params).None?;
    BuildAggsFailPersists(facets, offerIBlockId, fields, offers, requestSort, params, i + 1);
  }

  lemma BuildStepExtends(facets: OMap<Mapable>, offerIBlockId: int, fields: OMap<Mapable>, offers: OMap<Mapable>,
                         requestSort: Value, params: OMap<Value>, i: nat, search: seq<Agg>, more: seq<Agg>)
    requires i < |facets|
    requires BuildAggs(facets[..i], offerIBlockId, fields, offers, requestSort, params) == Some(search)
    requires FacetAggs(facets[i].1, offerIBlockId, fields, offers, requestSort, params) == Some(more)
    ensures BuildAggs(facets[..i + 1], offerIBlockId, fields, offers, requestSort, params) == Some(search + more)
  {
    var p := facets[..i + 1];
    assert p[..|p| - 1] == facets[..i] && p[|p| - 1] == facets[i];
  }

  lemma {:induction false} BuildAggsFailPersists(facets: OMap<Mapable>, offerIBlockId: int, fields: OMap<Mapable>,
                                                 offers: OMap<Mapable>, requestSort: Value, params: OMap<Value>, n: nat)
    requires n <= |facets| && BuildAggs(facets[..n], offerIBlockId, fields, offers, requestSort, params).None?
    ensures BuildAggs(facets, offerIBlockId, fields, offers, requestSort, params).None?
    decreases |facets| - n
  {
    if n < |facets| {
      assert facets[..n + 1][..n] == facets[..n];
      BuildAggsFailPersists(facets, offerIBlockId, fields, offers, requestSort, params, n + 1);
    } else {
      assert facets[..n] == facets;
    }
  }
}
