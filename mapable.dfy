/** The shared shape of mapping elements and their sub-properties: what the `Mapable`
    contract exposes, plus the Bitrix-side data an element carries. A value of this type is
    the state of one descriptor object at the moment it was put into a mapping. */
module Mapable {
  import opened Php
  import opened BitrixFieldType

  /** A PHP callable kept by an element; only its identity matters here. */
  datatype Callable = Callable(id: string)

  /** The fields only a full mapping element (not a sub-property) has. */
  datatype ElementInfo = ElementInfo(
    title: Option<string>,
    hint: Option<string>,
    showingType: Option<string>,
    bitrixIblockId: Option<int>,
    bitrixIblockField: Option<string>,
    bitrixIblockPropertyLink: Option<int>,
    bitrixIblockFieldType: Option<FieldKind>,
    bitrixHL: Option<string>,
    hasInFilter: bool,
    hasInSearch: bool,
    showInSection: Option<Value>,
    sort: int,
    propertyType: Value,
    propertyId: Value,
    callback: Option<Callable>,
    targetClass: Option<string>,
    targetMethod: Option<string>)

  /** A descriptor: `element` is present for an element and absent for a sub-property. */
  datatype Mapable = Mapable(
    name: string,
    fieldType: string,
    enabled: bool,
    normalizer: Option<string>,
    analyzer: Option<string>,
    properties: PropList,
    element: Option<ElementInfo>)

  /** `getProperties()`: null until a list is set. */
  datatype PropList = NoList | PropList(items: seq<Mapable>)

  predicate IsElement(m: Mapable) {
    m.element.Some?
  }

  /** The children of a descriptor; a missing list reads as none. */
  function Children(m: Mapable): seq<Mapable> {
    if m.properties.PropList? then m.properties.items else []
  }

  /** The last descriptor in `ps` with name `k`: the one a name-keyed PHP array keeps. */
  function LastNamed(ps: seq<Mapable>, k: string): (r: Option<Mapable>)
    ensures r.Some? ==> r.value in ps && r.value.name == k
    ensures r.None? ==> forall p :: p in ps ==> p.name != k
  {
    if ps == [] then None
    else if ps[|ps| - 1].name == k then Some(ps[|ps| - 1])
    else LastNamed(ps[..|ps| - 1], k)
  }

  /** `$a[$p->getName()] = $p` for every descriptor of `ps` in order, starting from `acc`. */
  function PutAll(acc: OMap<Mapable>, ps: seq<Mapable>): (r: OMap<Mapable>)
    ensures forall k :: Get(r, k) == if LastNamed(ps, k).Some? then LastNamed(ps, k) else Get(acc, k)
  {
    if ps == [] then acc
    else Put(PutAll(acc, ps[..|ps| - 1]), ps[|ps| - 1].name, ps[|ps| - 1])
  }

  /** The descriptors of `ps` keyed by name. */
  function ByName(ps: seq<Mapable>): (r: OMap<Mapable>)
    ensures forall k :: Get(r, k) == LastNamed(ps, k)
  {
    PutAll([], ps)
  }

  /** Putting two runs one after the other is putting their concatenation. */
  lemma {:induction false} PutAllAppend(acc: OMap<Mapable>, a: seq<Mapable>, b: seq<Mapable>)
    ensures PutAll(PutAll(acc, a), b) == PutAll(acc, a + b)
  {
    if b == [] {
      assert a + b == a;
    } else {
      assert (a + b)[..|a + b| - 1] == a + b[..|b| - 1];
      assert (a + b)[|a + b| - 1] == b[|b| - 1];
      PutAllAppend(acc, a, b[..|b| - 1]);
    }
  }
}
