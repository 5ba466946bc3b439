/** The recursive mapping serialiser shared by elements and sub-properties: one descriptor
    becomes the array Elasticsearch expects for that field. */
module MapableToArray {
  import opened Php
  import opened Mapable

  /** The keys a serialised descriptor can have. */
  predicate MappingKey(k: string) {
    k == "type" || k == "enabled" || k == "normalizer" || k == "analyzer" || k == "properties"
  }

  /** `toArray()`: the scalar keys, then `properties` when there are children. */
  function ToArray(m: Mapable): (r: OMap<Value>)
    decreases m, 1, 0
  {
    if m.properties.PropList? && m.properties.items != [] then
      Header(m) + [("properties", VMap(PropsArray(m, |m.properties.items|)))]
    else Header(m)
  }

  /** `type` first, then `enabled => false` for a disabled descriptor, then `normalizer` and
      `analyzer` when set. */
  function Header(m: Mapable): OMap<Value> {
    var withType := [("type", VStr(m.fieldType))];
    var withEnabled := if m.enabled then withType else withType + [("enabled", VBool(false))];
    var withNormalizer :=
      if m.normalizer.Some? then withEnabled + [("normalizer", VStr(m.normalizer.value))] else withEnabled;
    if m.analyzer.Some? then withNormalizer + [("analyzer", VStr(m.analyzer.value))] else withNormalizer
  }

  /** The `properties` array of `m` after its first `n` children: each child's name mapped
      to the child's own serialisation. */
  function PropsArray(m: Mapable, n: nat): (r: OMap<Value>)
    requires m.properties.PropList? && n <= |m.properties.items|
    decreases m, 0, n
  {
    if n == 0 then []
    else Put(PropsArray(m, n - 1), m.properties.items[n - 1].name, VMap(ToArray(m.properties.items[n - 1])))
  }

  /** Appending an entry to a header leaves the lookups of the four header keys as
      `GetSnoc` says, each stated for its own key. */
  lemma HeaderSnoc(h: OMap<Value>, k: string, v: Value)
    ensures Get(h + [(k, v)], "type") == if Get(h, "type").Some? then Get(h, "type") else if k == "type" then Some(v) else None
    ensures Get(h + [(k, v)], "enabled") == if Get(h, "enabled").Some? then Get(h, "enabled") else if k == "enabled" then Some(v) else None
    ensures Get(h + [(k, v)], "normalizer") ==
      if Get(h, "normalizer").Some? then Get(h, "normalizer") else if k == "normalizer" then Some(v) else None
    ensures Get(h + [(k, v)], "analyzer") ==
      if Get(h, "analyzer").Some? then Get(h, "analyzer") else if k == "analyzer" then Some(v) else None
  {
    GetSnoc(h, k, v);
  }

  lemma HeaderKeys(m: Mapable)
    ensures Get(Header(m), "type") == Some(VStr(m.fieldType))
    ensures Get(Header(m), "enabled") == if m.enabled then None else Some(VBool(false))
    ensures Get(Header(m), "normalizer") == if m.normalizer.Some? then Some(VStr(m.normalizer.value)) else None
    ensures Get(Header(m), "analyzer") == if m.analyzer.Some? then Some(VStr(m.analyzer.value)) else None
  {
    var withType := [("type", VStr(m.fieldType))];
    HeaderSnoc([], "type", VStr(m.fieldType));
    assert [] + [("type", VStr(m.fieldType))] == withType;
    var withEnabled := if m.enabled then withType else withType + [("enabled", VBool(false))];
    if !m.enabled { HeaderSnoc(withType, "enabled", VBool(false)); }
    var withNormalizer :=
      if m.normalizer.Some? then withEnabled + [("normalizer", VStr(m.normalizer.value))] else withEnabled;
    if m.normalizer.Some? { HeaderSnoc(withEnabled, "normalizer", VStr(m.normalizer.value)); }
    if m.analyzer.Some? { HeaderSnoc(withNormalizer, "analyzer", VStr(m.analyzer.value)); }
  }

  lemma HeaderEntries(m: Mapable)
    ensures forall e :: e in Header(m) ==> MappingKey(e.0) && e.0 != "properties"
    ensures Get(Header(m), "properties") == None
  {
    if Get(Header(m), "properties").Some? {
      assert ("properties", Get(Header(m), "properties").value) in Header(m);
    }
  }

  /** What each key of a serialised descriptor holds, and that no other key appears. */
  lemma ToArrayKeys(m: Mapable)
    ensures Get(ToArray(m), "type") == Some(VStr(m.fieldType))
    ensures Get(ToArray(m), "enabled") == if m.enabled then None else Some(VBool(false))
    ensures Get(ToArray(m), "normalizer") == if m.normalizer.Some? then Some(VStr(m.normalizer.value)) else None
    ensures Get(ToArray(m), "analyzer") == if m.analyzer.Some? then Some(VStr(m.analyzer.value)) else None
    ensures forall e :: e in ToArray(m) ==> MappingKey(e.0)
  {
    HeaderKeys(m);
    HeaderEntries(m);
    var h := Header(m);
    if m.properties.PropList? && m.properties.items != [] {
      var x := VMap(PropsArray(m, |m.properties.items|));
      assert ToArray(m) == h + [("properties", x)];
      GetSnoc(h, "properties", x);
      forall e | e in ToArray(m) ensures MappingKey(e.0) {
        assert e in h || e == ("properties", x);
      }
    } else {
      assert ToArray(m) == h;
    }
  }

  /** `properties` is present exactly when the descriptor has children. */
  lemma ToArrayProperties(m: Mapable)
    ensures Get(ToArray(m), "properties").Some? <==> Children(m) != []
    ensures Children(m) != [] ==> Get(ToArray(m), "properties") == Some(VMap(PropsArray(m, |Children(m)|)))
  {
    HeaderEntries(m);
    var h := Header(m);
    if m.properties.PropList? && m.properties.items != [] {
      var x := VMap(PropsArray(m, |m.properties.items|));
      assert ToArray(m) == h + [("properties", x)];
      GetSnoc(h, "properties", x);
    } else {
      assert ToArray(m) == h;
    }
  }

  /** Each child name maps to the serialisation of the last child with that name; names of
      no child are absent. */
  lemma PropsArrayGet(m: Mapable, n: nat, k: string)
    requires m.properties.PropList? && n <= |m.properties.items|
    ensures Get(PropsArray(m, n), k) ==
      if LastNamed(m.properties.items[..n], k).Some?
      then Some(VMap(ToArray(LastNamed(m.properties.items[..n], k).value)))
      else None
  {
    var ps := m.properties.items;
    var g := (i: nat) => if i <= |ps| then PropsArray(m, i) else [];
    forall i | 0 < i <= n
      ensures g(i) == Put(g(i - 1), ps[i - 1].name, VMap(ToArray(ps[i - 1])))
    {
      assert g(i) == PropsArray(m, i) && g(i - 1) == PropsArray(m, i - 1);
      PropsArrayStep(m, i);
    }
    PutStepsGet(ps, (p: Mapable) => VMap(ToArray(p)), g, n, k);
  }

  /** Putting each of the first `n` children under its name, starting from the empty array,
      leaves under `k` the value of the last child named `k`, and nothing under other names. */
  lemma {:induction false} PutStepsGet(ps: seq<Mapable>, f: Mapable -> Value, g: nat -> OMap<Value>, n: nat, k: string)
    requires n <= |ps| && g(0) == []
    requires forall i :: 0 < i <= n ==> g(i) == Put(g(i - 1), ps[i - 1].name, f(ps[i - 1]))
    ensures Get(g(n), k) == if LastNamed(ps[..n], k).Some? then Some(f(LastNamed(ps[..n], k).value)) else None
  {
    if n > 0 {
      assert g(n) == Put(g(n - 1), ps[n - 1].name, f(ps[n - 1]));
      LastNamedStep(ps, n, k);
      if ps[n - 1].name != k {
        PutStepsGet(ps, f, g, n - 1, k);
      }
    }
  }

  /** The `i`-th child is put under its name after the first `i - 1`. */
  lemma PropsArrayStep(m: Mapable, i: nat)
    requires m.properties.PropList? && 0 < i <= |m.properties.items|
    ensures PropsArray(m, i) == Put(PropsArray(m, i - 1), m.properties.items[i - 1].name, VMap(ToArray(m.properties.items[i - 1])))
  {
  }

  /** The last child named `k` among the first `n` is the `n`-th one or one of the first `n - 1`. */
  lemma LastNamedStep(ps: seq<Mapable>, n: nat, k: string)
    requires 0 < n <= |ps|
    ensures LastNamed(ps[..n], k) == if ps[n - 1].name == k then Some(ps[n - 1]) else LastNamed(ps[..n - 1], k)
  {
    assert ps[..n][..n - 1] == ps[..n - 1];
  }
}
