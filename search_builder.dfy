/** Turns a filter map into the MUST clauses of an Elasticsearch bool query, dispatching
    each key on the declared type of the field it names. */
module SearchBuilder {
  import opened Php
  import opened TypeEnum
  import opened Mapable
  import IC = IndexConfig

  /** A query operand: a boolean, an integer cast, the float cast of a value (floats are not
      modelled beyond naming their source), or a value passed through. */
  datatype Scalar = SBool(b: bool) | SInt(i: int) | SFloatOf(source: Value) | SValue(v: Value)

  datatype Query =
    | Term(field: string, value: Scalar)
    | Terms(field: string, values: Value)
    | Range(field: string, bound: string, limit: Scalar)
    | NestedQuery(path: string, query: Query)

  // ------------------------------------------------------------- range keys

  /** Keys ending in `_from` or `_to` are range bounds. */
  predicate IsRange(key: string) {
    EndsWith(key, "_from") || EndsWith(key, "_to")
  }

  /** `gte` for a lower bound, `lte` for anything else. */
  function GetBottom(key: string): (r: string)
    ensures r == "gte" <==> EndsWith(key, "_from")
    ensures r == "gte" || r == "lte"
  {
    if EndsWith(key, "_from") then "gte" else "lte"
  }

  /** The two suffixes end in different letters, so a key has at most one of them. */
  lemma SuffixLastChar(key: string)
    ensures EndsWith(key, "_from") ==> key[|key| - 1] == 'm'
    ensures EndsWith(key, "_to") ==> key[|key| - 1] == 'o'
  {
    if EndsWith(key, "_from") { assert key[|key| - 5..][4] == 'm'; }
    if EndsWith(key, "_to") { assert key[|key| - 3..][2] == 'o'; }
  }

  /** The key without its range suffix. */
  function CleanKey(key: string): (r: string)
    ensures EndsWith(key, "_from") ==> r + "_from" == key
    ensures EndsWith(key, "_to") ==> r + "_to" == key
    ensures !IsRange(key) ==> r == key
  {
    SuffixLastChar(key);
    if EndsWith(key, "_from") then key[..|key| - 5]
    else if EndsWith(key, "_to") then key[..|key| - 3]
    else key
  }

  /** A key has at most one range suffix, and cleaning a built bound key gives back its field. */
  lemma CleanKeyOfBound(field: string)
    ensures IsRange(field + "_from") && CleanKey(field + "_from") == field && GetBottom(field + "_from") == "gte"
    ensures IsRange(field + "_to") && CleanKey(field + "_to") == field && GetBottom(field + "_to") == "lte"
  {
    var f := field + "_from";
    var t := field + "_to";
    assert f[|f| - 5..] == "_from";
    assert t[|t| - 3..] == "_to";
    SuffixLastChar(t);
    assert f[..|f| - 5] == field;
    assert t[..|t| - 3] == field;
  }

  // ------------------------------------------------------------- clauses

  /** `!empty($range)`: a bound was named. */
  predicate HasBound(range: Option<string>) {
    range.Some? && !Empty(VStr(range.value))
  }

  lemma BottomIsBound(key: string)
    ensures HasBound(Some(GetBottom(key)))
  {
  }

  /** The field a clause constrains. */
  function Target(q: Query): string {
    match q
    case Term(f, _) => f
    case Terms(f, _) => f
    case Range(f, _, _) => f
    case NestedQuery(p, _) => p
  }

  /** The clause for one filter value on a field of the item's type; `range` is the bound
      the original key named, if any. Types without a clause (text, date, object, unknown)
      give None, the source's null. */
  function AddQueryByType(item: Mapable, key: string, value: Value, range: Option<string>): (r: Option<Query>)
    ensures r.Some? <==> ParseType(item.fieldType) in {Some(Boolean), Some(Integer), Some(Float), Some(Keyword), Some(Nested)}
    ensures r.Some? ==> Target(r.value) == key
    ensures ParseType(item.fieldType) == Some(Boolean) ==> r == Some(Term(key, SBool(!Empty(value))))
    ensures ParseType(item.fieldType) == Some(Integer) ==>
      r == Some(if HasBound(range) then Range(key, range.value, SInt(ToInt(value))) else Term(key, SInt(ToInt(value))))
    ensures ParseType(item.fieldType) == Some(Keyword) ==>
      r == Some(if IsArray(value) then Terms(key, value) else Term(key, SValue(value)))
    ensures ParseType(item.fieldType) == Some(Float) ==>
      r == Some(if HasBound(range) then Range(key, range.value, SFloatOf(value)) else Term(key, SFloatOf(value)))
    ensures ParseType(item.fieldType) == Some(Nested) ==>
      r == Some(NestedQuery(key, if IsArray(value) then Terms(key + ".value", value)
                                 else Term(key + ".value", SValue(value))))
  {
    match ParseType(item.fieldType)
    case Some(Boolean) => Some(Term(key, SBool(!Empty(value))))
    case Some(Integer) =>
      if HasBound(range) then Some(Range(key, range.value, SInt(ToInt(value))))
      else Some(Term(key, SInt(ToInt(value))))
    case Some(Float) =>
      if HasBound(range) then Some(Range(key, range.value, SFloatOf(value)))
      else Some(Term(key, SFloatOf(value)))
    case Some(Keyword) =>
      if IsArray(value) then Some(Terms(key, value)) else Some(Term(key, SValue(value)))
    case Some(Nested) =>
      if IsArray(value) then Some(NestedQuery(key, Terms(key + ".value", value)))
      else Some(NestedQuery(key, Term(key + ".value", SValue(value))))
    case _ => None
  }

  /** The offers key with `offers_` rewritten to the nested path `offers.`. */
  function OfferField(key: string): string {
    ReplaceAll(key, "offers_", "offers.")
  }

  /** The clause of an offers sub-field, wrapped in a nested query on `offers`. */
  function AddQueryOfferByType(item: Mapable, key: string, value: Value): (r: Option<Query>)
    ensures r.Some? <==> AddQueryByType(item, OfferField(key), value, None).Some?
    ensures r.Some? ==> r.value == NestedQuery("offers", AddQueryByType(item, OfferField(key), value, None).value)
  {
    match AddQueryByType(item, OfferField(key), value, None)
    case Some(q) => Some(NestedQuery("offers", q))
    case None => None
  }

  // ------------------------------------------------------------- field tables

  /** The offers sub-fields of every element named `offers`, in mapping order. */
  function OffersChildren(items: seq<Mapable>): seq<Mapable> {
    if items == [] then []
    else
      var last := items[|items| - 1];
      OffersChildren(items[..|items| - 1]) + (if last.name == "offers" then Children(last) else [])
  }

  /** The offers sub-field table: each sub-field name mapped to the last sub-field with it. */
  function OffersTable(items: seq<Mapable>): (r: OMap<Mapable>)
    ensures r == ByName(OffersChildren(items))
  {
    if items == [] then []
    else
      var last := items[|items| - 1];
      var prev := OffersTable(items[..|items| - 1]);
      PutAllAppend([], OffersChildren(items[..|items| - 1]), if last.name == "offers" then Children(last) else []);
      if last.name == "offers" then PutAll(prev, Children(last)) else prev
  }

  // ------------------------------------------------------------- the bool query

  /** A built clause as a one-clause list; None when there is no clause, because
      `BoolQuery::add` takes only a query object and rejects the null. */
  function Single(q: Option<Query>): (r: Option<seq<Query>>)
    ensures r.Some? <==> q.Some?
    ensures r.Some? ==> r.value == [q.value]
  {
    if q.Some? then Some([q.value]) else None
  }

  /** The nested `offers` clause an `offers_` key adds: none for other keys, and None
      when the offers table lacks the sub-field (the unguarded lookup hands null to a typed
      parameter) or the sub-field's type has no clause. */
  function OfferClauses(offers: OMap<Mapable>, key: string, value: Value): Option<seq<Query>> {
    if Contains(key, "offers_") then
      match Get(offers, ReplaceAll(key, "offers_", ""))
      case Some(item) => Single(AddQueryOfferByType(item, key, value))
      case None => None
    else Some([])
  }

  /** Whether the cleaned key adds nothing: a `sort` key the request's own sort overrides,
      or a name the field table lacks. */
  predicate SkipsField(fields: OMap<Mapable>, requestSort: Value, key: string) {
    var clean := CleanKey(key);
    (!Empty(requestSort) && clean == "sort") || Get(fields, clean).None?
  }

  /** The clause the cleaned key adds on its own; None when the field's type has no clause. */
  function FieldClauses(fields: OMap<Mapable>, requestSort: Value, key: string, value: Value): Option<seq<Query>> {
    var clean := CleanKey(key);
    if !Empty(requestSort) && clean == "sort" then Some([])
    else match Get(fields, clean)
      case None => Some([])
      case Some(item) => Single(AddQueryByType(item, clean, value, if IsRange(key) then Some(GetBottom(key)) else None))
  }

  /** Concatenation that fails when either side failed. */
  function AppendOpt(x: Option<seq<Query>>, y: Option<seq<Query>>): Option<seq<Query>> {
    if x.Some? && y.Some? then Some(x.value + y.value) else None
  }

  /** The MUST clauses one filter entry adds: the offers clause first, then the field's.
      None for an integer key: PHP stores a canonical decimal key as an integer, and
      `isRange(string $key)` rejects it under strict types. */
  function StepClauses(fields: OMap<Mapable>, offers: OMap<Mapable>, requestSort: Value, key: string, value: Value)
    : Option<seq<Query>>
  {
    if IsIntKey(key) then None
    else AppendOpt(OfferClauses(offers, key, value), FieldClauses(fields, requestSort, key, value))
  }

  /** A key holding `offers_` is never an integer key. */
  lemma OffersKeyNotInt(key: string)
    requires Contains(key, "offers_")
    ensures !IsIntKey(key)
  {
    var p := FindFrom(key, "offers_", 0).value;
    assert key[p..p + 7][0] == 'o';
    IntKeyChars(key, p);
  }

  /** The clauses of all entries, in parameter order; None once an entry fails. */
  function Clauses(fields: OMap<Mapable>, offers: OMap<Mapable>, requestSort: Value, params: OMap<Value>)
    : Option<seq<Query>>
  {
    if params == [] then Some([])
    else
      var last := params[|params| - 1];
      AppendOpt(Clauses(fields, offers, requestSort, params[..|params| - 1]),
                StepClauses(fields, offers, requestSort, last.0, last.1))
  }

  /** The clause the field table gives the cleaned key, when it names a field. */
  function FieldQuery(fields: OMap<Mapable>, key: string, value: Value): Option<Query>
    requires Get(fields, CleanKey(key)).Some?
  {
    AddQueryByType(Get(fields, CleanKey(key)).value, CleanKey(key), value,
                   if IsRange(key) then Some(GetBottom(key)) else None)
  }

  /** A plain key (no `offers_`) fails when it is an integer key; otherwise it adds nothing
      when its cleaned name is a skipped `sort` or no known field, and else it adds that
      field's clause, failing when the field's type has none. */
  lemma PlainKeyClauses(fields: OMap<Mapable>, offers: OMap<Mapable>, requestSort: Value, key: string, value: Value)
    requires !Contains(key, "offers_")
    ensures IsIntKey(key) ==> StepClauses(fields, offers, requestSort, key, value).None?
    ensures !IsIntKey(key) && SkipsField(fields, requestSort, key) ==>
      StepClauses(fields, offers, requestSort, key, value) == Some([])
    ensures !IsIntKey(key) && !SkipsField(fields, requestSort, key) ==>
      (StepClauses(fields, offers, requestSort, key, value).Some? <==> FieldQuery(fields, key, value).Some?)
      && (FieldQuery(fields, key, value).Some? ==>
            StepClauses(fields, offers, requestSort, key, value) == Some([FieldQuery(fields, key, value).value]))
  {
    assert OfferClauses(offers, key, value) == Some([]);
    var f := FieldClauses(fields, requestSort, key, value);
    if f.Some? { assert [] + f.value == f.value; }
  }

  /** A key naming a known offers sub-field adds the nested `offers` clause first and then,
      like any other key, the clause of its cleaned name when that names a top-level field;
      it fails when the sub-field is unknown or either clause cannot be built. */
  lemma OfferKeyClauses(fields: OMap<Mapable>, offers: OMap<Mapable>, requestSort: Value, key: string, value: Value)
    requires Contains(key, "offers_")
    ensures var sub := ReplaceAll(key, "offers_", "");
      var oq := if Get(offers, sub).Some? then AddQueryOfferByType(Get(offers, sub).value, key, value) else None;
      var skip := SkipsField(fields, requestSort, key);
      var r := StepClauses(fields, offers, requestSort, key, value);
      && (r.Some? <==> oq.Some? && (skip || FieldQuery(fields, key, value).Some?))
      && (r.Some? ==> r.value == [oq.value] + (if skip then [] else [FieldQuery(fields, key, value).value]))
  {
    OffersKeyNotInt(key);
  }

  lemma ClausesSnoc(fields: OMap<Mapable>, offers: OMap<Mapable>, requestSort: Value, params: OMap<Value>, i: nat)
    requires i < |params|
    ensures Clauses(fields, offers, requestSort, params[..i + 1]) ==
      AppendOpt(Clauses(fields, offers, requestSort, params[..i]), StepClauses(fields, offers, requestSort, params[i].0, params[i].1))
  {
    assert params[..i + 1][..i] == params[..i];
  }

  /** Once an entry fails, the whole filter map fails. */
  lemma {:induction false} ClausesFailPersists(fields: OMap<Mapable>, offers: OMap<Mapable>, requestSort: Value, params: OMap<Value>, n: nat)
    requires n <= |params| && Clauses(fields, offers, requestSort, params[..n]).None?
    ensures Clauses(fields, offers, requestSort, params).None?
    decreases |params| - n
  {
    if n < |params| {
      ClausesSnoc(fields, offers, requestSort, params, n);
      ClausesFailPersists(fields, offers, requestSort, params, n + 1);
    } else {
      assert params[..n] == params;
    }
  }

  class SearchBuilder {
    var fieldsArray: OMap<Mapable>
    var offersFieldsArray: OMap<Mapable>

    /** Keys every mapping element by name, and the sub-fields of `offers` elements by theirs. */
    constructor (config: IC.IndexConfig)
      requires config.mapping.Some?
      ensures fieldsArray == ByName(config.mapping.value)
      ensures offersFieldsArray == OffersTable(config.mapping.value)
    {
      var items := config.mapping.value;
      var fields: OMap<Mapable> := [];
      var offers: OMap<Mapable> := [];
      var i := 0;
      while i < |items|
        invariant 0 <= i <= |items|
        invariant fields == PutAll([], items[..i])
        invariant offers == OffersTable(items[..i])
      {
        var item := items[i];
        assert items[..i + 1][..i] == items[..i];
        fields := Put(fields, item.name, item);
        if item.name == "offers" {
          var subs := Children(item);
          var j := 0;
          while j < |subs|
            invariant 0 <= j <= |subs|
            invariant offers == PutAll(OffersTable(items[..i]), subs[..j])
          {
            assert subs[..j + 1][..j] == subs[..j];
            offers := Put(offers, subs[j].name, subs[j]);
            j := j + 1;
          }
          assert subs[..j] == subs;
        }
        i := i + 1;
      }
      assert items[..i] == items;
      fieldsArray := fields;
      offersFieldsArray := offers;
    }

    /** The nested clause of an `offers_` key, looked up in the offers table. */
    method AddOfferEntry(key: string, value: Value) returns (cs: Option<seq<Query>>)
      ensures cs == OfferClauses(offersFieldsArray, key, value)
    {
      cs := Some([]);
      if Contains(key, "offers_") {
        var sub := Get(offersFieldsArray, ReplaceAll(key, "offers_", ""));
        if sub.None? {
          return None;
        }
        var q := AddQueryOfferByType(sub.value, key, value);
        if q.None? {
          return None;
        }
        cs := Some([q.value]);
      }
    }

    /** The clause of the cleaned key, looked up in the field table. */
    method AddFieldEntry(key: string, value: Value, requestSort: Value) returns (cs: Option<seq<Query>>)
      ensures cs == FieldClauses(fieldsArray, requestSort, key, value)
    {
      var range: Option<string> := None;
      if IsRange(key) {
        range := Some(GetBottom(key));
      }
      var clean := CleanKey(key);
      if !Empty(requestSort) && clean == "sort" {
        return Some([]);
      }
      var item := Get(fieldsArray, clean);
      if item.None? {
        return Some([]);
      }
      var q := AddQueryByType(item.value, clean, value, range);
      if q.None? {
        return None;
      }
      cs := Some([q.value]);
    }

    /** The clauses of one filter entry: the offers clause first, then the field's; None for
        an integer key, which `isRange(string $key)` rejects. */
    method AddEntry(key: string, value: Value, requestSort: Value) returns (cs: Option<seq<Query>>)
      ensures cs == StepClauses(fieldsArray, offersFieldsArray, requestSort, key, value)
    {
      if IsIntKey(key) {
        return None;
      }
      var offerPart := AddOfferEntry(key, value);
      if offerPart.None? {
        return None;
      }
      var fieldPart := AddFieldEntry(key, value, requestSort);
      if fieldPart.None? {
        return None;
      }
      cs := Some(offerPart.value + fieldPart.value);
    }

    /** Walks the filter map once, adding each entry's clauses; `requestSort` is the
        request's `sort` value. */
    method GetBoolQuery(queryParams: OMap<Value>, requestSort: Value) returns (must: Option<seq<Query>>)
      ensures must == Clauses(fieldsArray, offersFieldsArray, requestSort, queryParams)
    {
      var fields, offers := fieldsArray, offersFieldsArray;
      var clauses: seq<Query> := [];
      var i := 0;
      while i < |queryParams|
        invariant 0 <= i <= |queryParams|
        invariant Clauses(fields, offers, requestSort, queryParams[..i]) == Some(clauses)
      {
        ClausesSnoc(fields, offers, requestSort, queryParams, i);
        var cs := AddEntry(queryParams[i].0, queryParams[i].1, requestSort);
        if cs.None? {
          ClausesFailPersists(fields, offers, requestSort, queryParams, i + 1);
          return None;
        }
        clauses := clauses + cs.value;
        i := i + 1;
      }
      assert queryParams[..i] == queryParams;
      must := Some(clauses);
    }
  }
}
