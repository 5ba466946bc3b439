/** The index configuration: name, mapping, settings and the two iblock ids, each written by
    its own setter, and the name-keyed mapping handed to Elasticsearch. */
module IndexConfig {
  import opened Php
  import opened Mapable
  import opened MapableToArray

  /** The mapping array: each element name mapped to that element's `toArray()`, in order. */
  function MappingArray(items: seq<Mapable>): (r: OMap<Value>)
    ensures forall k :: Get(r, k) == (if LastNamed(items, k).Some? then Some(VMap(ToArray(LastNamed(items, k).value))) else None)
  {
    if items == [] then []
    else Put(MappingArray(items[..|items| - 1]), items[|items| - 1].name, VMap(ToArray(items[|items| - 1])))
  }

  /** One entry per distinct element name. */
  lemma {:induction false} MappingArrayNoDupKeys(items: seq<Mapable>)
    ensures NoDupKeys(MappingArray(items))
  {
    if items != [] {
      MappingArrayNoDupKeys(items[..|items| - 1]);
      PutNoDupKeys(MappingArray(items[..|items| - 1]), items[|items| - 1].name, VMap(ToArray(items[|items| - 1])));
    }
  }

  /** A descriptor's `properties` array is the same fold over its children. */
  lemma PropsArrayIsMappingArray(m: Mapable, n: nat)
    requires m.properties.PropList? && n <= |m.properties.items|
    ensures PropsArray(m, n) == MappingArray(m.properties.items[..n])
  {
    var ps := m.properties.items;
    var g := (i: nat) => if i <= |ps| then PropsArray(m, i) else [];
    var h := (i: nat) => if i <= |ps| then MappingArray(ps[..i]) else [];
    forall i | 0 < i <= n
      ensures g(i) == Put(g(i - 1), ps[i - 1].name, VMap(ToArray(ps[i - 1])))
    {
      assert g(i) == PropsArray(m, i) && g(i - 1) == PropsArray(m, i - 1);
      PropsArrayStep(m, i);
    }
    forall i | 0 < i <= n
      ensures h(i) == Put(h(i - 1), ps[i - 1].name, VMap(ToArray(ps[i - 1])))
    {
      assert h(i) == MappingArray(ps[..i]) && h(i - 1) == MappingArray(ps[..i - 1]);
      MappingArrayPrefixStep(ps, i);
    }
    SameSteps(ps, (p: Mapable) => VMap(ToArray(p)), g, h, n);
  }

  /** The `i`-th element is put after the first `i - 1`. */
  lemma MappingArrayPrefixStep(items: seq<Mapable>, i: nat)
    requires 0 < i <= |items|
    ensures MappingArray(items[..i]) == Put(MappingArray(items[..i - 1]), items[i - 1].name, VMap(ToArray(items[i - 1])))
  {
    var q := items[..i];
    assert q[..|q| - 1] == items[..i - 1] && q[|q| - 1] == items[i - 1];
  }

  /** Two runs of the same puts from the same start agree. */
  lemma {:induction false} SameSteps(ps: seq<Mapable>, f: Mapable -> Value, g: nat -> OMap<Value>, h: nat -> OMap<Value>, n: nat)
    requires n <= |ps| && g(0) == h(0)
    requires forall i :: 0 < i <= n ==> g(i) == Put(g(i - 1), ps[i - 1].name, f(ps[i - 1]))
    requires forall i :: 0 < i <= n ==> h(i) == Put(h(i - 1), ps[i - 1].name, f(ps[i - 1]))
    ensures g(n) == h(n)
  {
    if n > 0 {
      SameSteps(ps, f, g, h, n - 1);
    }
  }

  class IndexConfig {
    var name: Option<string>
    var mapping: Option<seq<Mapable>>
    var settings: Option<OMap<Value>>
    var iBlockId: Option<int>
    var offerIBlockId: Option<int>

    constructor ()
      ensures name == None && mapping == None && settings == None
      ensures iBlockId == None && offerIBlockId == None
    {
      name := None;
      mapping := None;
      settings := None;
      iBlockId := None;
      offerIBlockId := None;
    }

    function GetName(): string
      reads this
      requires name.Some?
    {
      name.value
    }

    function GetSettings(): OMap<Value>
      reads this
      requires settings.Some?
    {
      settings.value
    }

    function GetMapping(): seq<Mapable>
      reads this
      requires mapping.Some?
    {
      mapping.value
    }

    /** Walks the mapping once, keying each element's serialisation by its name; an unset
        mapping gives an empty array. */
    method GetMappingForIndex() returns (map_: OMap<Value>)
      ensures map_ == MappingArray(if mapping.Some? then mapping.value else [])
    {
      var items := if mapping.Some? then mapping.value else [];
      map_ := [];
      var i := 0;
      while i < |items|
        invariant 0 <= i <= |items|
        invariant map_ == MappingArray(items[..i])
      {
        assert items[..i + 1][..i] == items[..i];
        map_ := Put(map_, items[i].name, VMap(ToArray(items[i])));
        i := i + 1;
      }
      assert items[..i] == items;
    }

    method SetName(v: string)
      modifies this`name
      ensures name == Some(v) && GetName() == v
    {
      name := Some(v);
    }

    method SetMapping(v: seq<Mapable>)
      modifies this`mapping
      ensures mapping == Some(v) && GetMapping() == v
    {
      mapping := Some(v);
    }

    method SetSettings(v: OMap<Value>)
      modifies this`settings
      ensures settings == Some(v) && GetSettings() == v
    {
      settings := Some(v);
    }

    function GetIBlockId(): int
      reads this
      requires iBlockId.Some?
    {
      iBlockId.value
    }

    method SetIBlockId(v: int)
      modifies this`iBlockId
      ensures iBlockId == Some(v) && GetIBlockId() == v
    {
      iBlockId := Some(v);
    }

    function GetOfferIBlockId(): int
      reads this
      requires offerIBlockId.Some?
    {
      offerIBlockId.value
    }

    method SetOfferIBlockId(v: int)
      modifies this`offerIBlockId
      ensures offerIBlockId == Some(v) && GetOfferIBlockId() == v
    {
      offerIBlockId := Some(v);
    }
  }
}
