/** The slice of PHP's value semantics that the filter pipeline relies on: ordered arrays,
    loose emptiness, the (int) cast and the string built-ins it calls. */
module Php {

  datatype Option<T> = None | Some(value: T)

  /** A PHP value as it appears in request maps, filter maps and decoded responses.
      Lists and string-keyed arrays are kept apart; both are PHP arrays. */
  datatype Value =
    | VNull
    | VBool(b: bool)
    | VInt(i: int)
    | VStr(s: string)
    | VList(items: seq<Value>)
    | VMap(entries: seq<(string, Value)>)

  /** An ordered PHP array with string keys, entries in insertion order. */
  type OMap<V> = seq<(string, V)>

  function Keys<V>(m: OMap<V>): (ks: seq<string>)
    ensures |ks| == |m|
  {
    if m == [] then [] else [m[0].0] + Keys(m[1..])
  }

  lemma {:induction false} KeysAt<V>(m: OMap<V>, i: nat)
    requires i < |m|
    ensures Keys(m)[i] == m[i].0
  {
    if i > 0 { KeysAt(m[1..], i - 1); }
  }

  lemma {:induction false} KeysAppend<V>(m: OMap<V>, n: OMap<V>)
    ensures Keys(m + n) == Keys(m) + Keys(n)
  {
    if m != [] {
      assert (m + n)[0] == m[0];
      assert (m + n)[1..] == m[1..] + n;
      KeysAppend(m[1..], n);
    } else {
      assert m + n == n;
    }
  }

  /** `$m[$k]` for a present key; None for a missing one. */
  function Get<V>(m: OMap<V>, k: string): (r: Option<V>)
    ensures r.Some? ==> (k, r.value) in m
  {
    if m == [] then None
    else if m[0].0 == k then Some(m[0].1)
    else Get(m[1..], k)
  }

  /** A lookup succeeds exactly for the keys present. */
  lemma {:induction false} GetKeys<V>(m: OMap<V>, k: string)
    ensures Get(m, k).Some? <==> k in Keys(m)
  {
    if m != [] {
      assert Keys(m) == [m[0].0] + Keys(m[1..]);
      if m[0].0 != k {
        GetKeys(m[1..], k);
      }
    }
  }

  /** Appending an entry only adds its key when the key was missing: an earlier entry wins a lookup. */
  lemma {:induction false} GetSnoc<V>(m: OMap<V>, k: string, v: V)
    ensures forall k' :: Get(m + [(k, v)], k') == if Get(m, k').Some? then Get(m, k') else if k' == k then Some(v) else None
  {
    if m != [] {
      assert (m + [(k, v)])[0] == m[0];
      assert (m + [(k, v)])[1..] == m[1..] + [(k, v)];
      GetSnoc(m[1..], k, v);
    }
  }

  /** The entry at position `i` is found when no earlier entry has its key. */
  lemma {:induction false} GetAt<V>(m: OMap<V>, i: nat)
    requires i < |m| && forall j :: 0 <= j < i ==> m[j].0 != m[i].0
    ensures Get(m, m[i].0) == Some(m[i].1)
  {
    if i > 0 {
      GetAt(m[1..], i - 1);
    }
  }

  /** `$m[$k] = $v`: an existing key keeps its position, a new key is appended. */
  function Put<V>(m: OMap<V>, k: string, v: V): (r: OMap<V>)
    ensures Get(r, k) == Some(v)
    ensures forall k' :: k' != k ==> Get(r, k') == Get(m, k')
  {
    if m == [] then [(k, v)]
    else if m[0].0 == k then [(k, v)] + m[1..]
    else
      var r := [m[0]] + Put(m[1..], k, v);
      assert r[1..] == Put(m[1..], k, v);
      r
  }

  /** `$m[$k] = $v` adds `k` to the keys when it was missing, and no entry but `(k, v)`. */
  lemma {:induction false} PutKeys<V>(m: OMap<V>, k: string, v: V)
    ensures Keys(Put(m, k, v)) == if k in Keys(m) then Keys(m) else Keys(m) + [k]
    ensures forall e :: e in Put(m, k, v) ==> e in m || e == (k, v)
  {
    if m != [] {
      assert Keys(m) == [m[0].0] + Keys(m[1..]);
      if m[0].0 == k {
        assert Keys(Put(m, k, v)) == [k] + Keys(m[1..]);
        assert forall e :: e in Put(m, k, v) ==> e == (k, v) || e in m[1..];
      } else {
        PutKeys(m[1..], k, v);
        var r := Put(m, k, v);
        assert r == [m[0]] + Put(m[1..], k, v);
        assert Keys(r) == [m[0].0] + Keys(Put(m[1..], k, v));
      }
    }
  }

  /** No key occurs twice: what every PHP array satisfies. */
  predicate NoDupKeys<V>(m: OMap<V>) {
    forall i, j :: 0 <= i < j < |m| ==> m[i].0 != m[j].0
  }

  /** Without duplicate keys, the last key is missing from the entries before it. */
  lemma NoDupLast<V>(m: OMap<V>)
    requires NoDupKeys(m) && m != []
    ensures Get(m[..|m| - 1], m[|m| - 1].0).None?
  {
    var init, k := m[..|m| - 1], m[|m| - 1].0;
    GetKeys(init, k);
    forall i | 0 <= i < |init|
      ensures Keys(init)[i] != k
    {
      KeysAt(init, i);
      assert init[i] == m[i];
    }
  }

  lemma NoDupInit<V>(m: OMap<V>)
    requires NoDupKeys(m) && m != []
    ensures NoDupKeys(m[..|m| - 1])
  {
    var init := m[..|m| - 1];
    forall i, j | 0 <= i < j < |init|
      ensures init[i].0 != init[j].0
    {
      assert init[i] == m[i] && init[j] == m[j];
    }
  }

  lemma {:induction false} PutNoDupKeys<V>(m: OMap<V>, k: string, v: V)
    requires NoDupKeys(m)
    ensures NoDupKeys(Put(m, k, v))
  {
    var r := Put(m, k, v);
    PutKeys(m, k, v);
    forall i, j | 0 <= i < j < |r| ensures r[i].0 != r[j].0 {
      KeysAt(r, i);
      KeysAt(r, j);
      if k in Keys(m) {
        KeysAt(m, i);
        KeysAt(m, j);
      } else {
        assert Keys(r) == Keys(m) + [k];
        if j < |m| {
          KeysAt(m, i);
          KeysAt(m, j);
        } else {
          KeysAt(m, i);
          assert Keys(m)[i] == r[i].0;
        }
      }
    }
  }

  /** `unset($m[$k])`. */
  function Remove<V>(m: OMap<V>, k: string): (r: OMap<V>)
    ensures Get(r, k) == None
    ensures forall k' :: k' != k ==> Get(r, k') == Get(m, k')
    ensures forall k' :: k' in Keys(r) <==> k' in Keys(m) && k' != k
    ensures forall e :: e in r ==> e in m
  {
    if m == [] then []
    else if m[0].0 == k then Remove(m[1..], k)
    else
      var r := [m[0]] + Remove(m[1..], k);
      assert r[1..] == Remove(m[1..], k);
      r
  }

  /** Unsetting a key forgets whatever was last stored under it. */
  lemma {:induction false} RemovePut<V>(m: OMap<V>, k: string, v: V)
    ensures Remove(Put(m, k, v), k) == Remove(m, k)
  {
    if m != [] && m[0].0 != k {
      RemovePut(m[1..], k, v);
      assert ([m[0]] + Put(m[1..], k, v))[1..] == Put(m[1..], k, v);
    }
  }

  /** Storing under one key and unsetting another commute. */
  lemma {:induction false} RemovePutOther<V>(m: OMap<V>, a: string, b: string, v: V)
    requires a != b
    ensures Remove(Put(m, a, v), b) == Put(Remove(m, b), a, v)
  {
    if m == [] {
      assert Remove([(a, v)], b) == [(a, v)] + Remove([], b);
    } else if m[0].0 == a {
      assert ([(a, v)] + m[1..])[1..] == m[1..];
      assert ([m[0]] + Remove(m[1..], b))[1..] == Remove(m[1..], b);
    } else if m[0].0 == b {
      RemovePutOther(m[1..], a, b, v);
      assert ([m[0]] + Put(m[1..], a, v))[1..] == Put(m[1..], a, v);
    } else {
      RemovePutOther(m[1..], a, b, v);
      assert ([m[0]] + Put(m[1..], a, v))[1..] == Put(m[1..], a, v);
      assert ([m[0]] + Remove(m[1..], b))[1..] == Remove(m[1..], b);
    }
  }

  /** `array_map($f, $m)`: keys and order kept, every value mapped. */
  function MapValues(m: OMap<Value>, f: Value -> Value): (r: OMap<Value>)
    ensures Keys(r) == Keys(m)
    ensures |r| == |m| && forall i :: 0 <= i < |m| ==> r[i] == (m[i].0, f(m[i].1))
    ensures forall k :: Get(r, k) == if Get(m, k).Some? then Some(f(Get(m, k).value)) else None
  {
    if m == [] then []
    else
      var r := [(m[0].0, f(m[0].1))] + MapValues(m[1..], f);
      assert r[1..] == MapValues(m[1..], f);
      r
  }

  /** `array_filter($m, $keep)`: keys kept, entries whose value fails `keep` dropped. */
  function FilterValues(m: OMap<Value>, keep: Value -> bool): (r: OMap<Value>)
    ensures forall e :: e in r ==> e in m && keep(e.1)
    ensures forall k :: Get(m, k).Some? && keep(Get(m, k).value) ==> Get(r, k) == Get(m, k)
    ensures forall k :: Get(m, k).None? ==> Get(r, k).None?
  {
    if m == [] then []
    else if keep(m[0].1) then
      var r := [m[0]] + FilterValues(m[1..], keep);
      assert r[1..] == FilterValues(m[1..], keep);
      r
    else FilterValues(m[1..], keep)
  }

  lemma {:induction false} FilterValuesAppend(m: OMap<Value>, e: (string, Value), keep: Value -> bool)
    ensures FilterValues(m + [e], keep) == FilterValues(m, keep) + (if keep(e.1) then [e] else [])
  {
    if m == [] {
      assert [] + [e] == [e];
    } else {
      assert (m + [e])[0] == m[0];
      assert (m + [e])[1..] == m[1..] + [e];
      FilterValuesAppend(m[1..], e, keep);
    }
  }

  /** `isset($m[$k])`: present and not null. */
  predicate IsSet(m: OMap<Value>, k: string) {
    Get(m, k).Some? && Get(m, k).value != VNull
  }

  /** `$m[$k]` read without a guard: a missing key reads as null. */
  function At(m: OMap<Value>, k: string): Value {
    match Get(m, k)
    case Some(v) => v
    case None => VNull
  }

  /** Reading key `k` of an arbitrary value: only string-keyed arrays have named entries. */
  function Field(v: Value, k: string): Value {
    if v.VMap? then At(v.entries, k) else VNull
  }

  /** `is_array`: lists and string-keyed arrays. */
  predicate IsArray(v: Value) {
    v.VList? || v.VMap?
  }

  /** PHP's `empty()`. */
  predicate Empty(v: Value) {
    match v
    case VNull => true
    case VBool(b) => !b
    case VInt(i) => i == 0
    case VStr(s) => s == "" || s == "0"
    case VList(items) => items == []
    case VMap(es) => es == []
  }

  /** Truthiness of a string in a PHP condition (`$title ? … : …`). */
  predicate Truthy(s: string) {
    !Empty(VStr(s))
  }

  // ---------------------------------------------------------------- numbers

  predicate IsDigit(c: char) { '0' <= c <= '9' }

  /** The longest prefix of `s` made of decimal digits. */
  function DigitPrefix(s: string): (d: string)
    ensures |d| <= |s| && d == s[..|d|]
    ensures forall i :: 0 <= i < |d| ==> IsDigit(d[i])
    ensures |d| < |s| ==> !IsDigit(s[|d|])
  {
    if s != [] && IsDigit(s[0]) then [s[0]] + DigitPrefix(s[1..]) else []
  }

  /** The value of a string of decimal digits, read left to right. */
  function DigitsValue(d: string): nat
  {
    if d == [] then 0
    else
      var last := d[|d| - 1];
      DigitsValue(d[..|d| - 1]) * 10 + (if IsDigit(last) then last as int - '0' as int else 0)
  }

  /** PHP's `(int)` cast of a string: an optional sign, then the leading digits; 0 when there are none. */
  function IntOf(s: string): int {
    if s != [] && s[0] == '-' then 0 - DigitsValue(DigitPrefix(s[1..])) as int
    else if s != [] && s[0] == '+' then DigitsValue(DigitPrefix(s[1..]))
    else DigitsValue(DigitPrefix(s))
  }

  /** PHP's `(int)` cast of any value (arrays give 0 when empty and 1 otherwise). */
  function ToInt(v: Value): int {
    match v
    case VNull => 0
    case VBool(b) => if b then 1 else 0
    case VInt(i) => i
    case VStr(s) => IntOf(s)
    case VList(items) => if items == [] then 0 else 1
    case VMap(es) => if es == [] then 0 else 1
  }

  function DigitChar(n: nat): char
    requires n < 10
  {
    ('0' as int + n) as char
  }

  /** Decimal rendering of a natural number, as PHP's `strval`. */
  function NatToString(n: nat): (s: string)
    ensures s != []
    ensures forall i :: 0 <= i < |s| ==> IsDigit(s[i])
  {
    if n < 10 then [DigitChar(n)] else NatToString(n / 10) + [DigitChar(n % 10)]
  }

  function IntToString(n: int): string {
    if n < 0 then "-" + NatToString(-n) else NatToString(n)
  }

  lemma {:induction false} DigitPrefixOfDigits(s: string)
    requires forall i :: 0 <= i < |s| ==> IsDigit(s[i])
    ensures DigitPrefix(s) == s
  {
    if s != [] { DigitPrefixOfDigits(s[1..]); }
  }

  lemma {:induction false} DigitsValueOfNat(n: nat)
    ensures DigitsValue(NatToString(n)) == n
  {
    var s := NatToString(n);
    if n >= 10 {
      DigitsValueOfNat(n / 10);
      assert s[..|s| - 1] == NatToString(n / 10);
    }
  }

  /** The (int) cast reads back what `strval` wrote. */
  lemma IntOfIntToString(n: int)
    ensures IntOf(IntToString(n)) == n
  {
    if n < 0 {
      var s := "-" + NatToString(-n);
      assert s[1..] == NatToString(-n);
      DigitPrefixOfDigits(NatToString(-n));
      DigitsValueOfNat(-n);
    } else {
      DigitPrefixOfDigits(NatToString(n));
      DigitsValueOfNat(n);
    }
  }

  // ---------------------------------------------------------------- array_merge

  /** PHP stores a key that is a canonical decimal integer string as an integer key. */
  predicate IsIntKey(k: string) {
    k == IntToString(IntOf(k))
  }

  lemma NatKeyIsIntKey(n: nat)
    ensures IsIntKey(NatToString(n))
  {
    IntOfIntToString(n);
  }

  /** An integer key holds only digits after an optional minus sign, so a key with any
      other character stays a string key. */
  lemma IntKeyChars(k: string, i: nat)
    requires i < |k| && !IsDigit(k[i]) && k[i] != '-'
    ensures !IsIntKey(k)
  {
  }

  /** A key that starts with a letter stays a string key. */
  lemma LetterKeyNotInt(k: string)
    requires k != [] && ('a' <= k[0] <= 'z' || 'A' <= k[0] <= 'Z')
    ensures !IsIntKey(k)
  {
    assert DigitPrefix(k) == [];
    assert IntToString(IntOf(k)) == [DigitChar(0)];
  }

  /** A list as a PHP array: its values under the keys 0, 1, 2, … */
  function ListEntries(items: seq<Value>): (r: OMap<Value>)
    ensures |r| == |items|
    ensures forall i :: 0 <= i < |items| ==> r[i] == (NatToString(i), items[i])
  {
    seq(|items|, i requires 0 <= i < |items| => (NatToString(i), items[i]))
  }

  /** One step of `array_merge`: the entries of `es` merged into `acc`, where `next` integer
      keys were already used; string keys overwrite in place or append, integer keys are
      renumbered. Returns the new array and the next free integer key. */
  function MergeInto(acc: OMap<Value>, next: nat, es: OMap<Value>): (OMap<Value>, nat)
    decreases |es|
  {
    if es == [] then (acc, next)
    else if IsIntKey(es[0].0) then MergeInto(Put(acc, NatToString(next), es[0].1), next + 1, es[1..])
    else MergeInto(Put(acc, es[0].0, es[0].1), next, es[1..])
  }

  function MergeAll(acc: OMap<Value>, next: nat, arrays: seq<OMap<Value>>): OMap<Value>
    decreases |arrays|
  {
    if arrays == [] then acc
    else
      var step := MergeInto(acc, next, arrays[0]);
      MergeAll(step.0, step.1, arrays[1..])
  }

  /** `array_merge($a1, $a2, …)`. */
  function ArrayMerge(arrays: seq<OMap<Value>>): OMap<Value> {
    MergeAll([], 0, arrays)
  }

  /** Merging a one-entry array with a string key is writing that key. */
  lemma MergeIntoString(acc: OMap<Value>, next: nat, k: string, v: Value)
    requires !IsIntKey(k)
    ensures MergeInto(acc, next, [(k, v)]) == (Put(acc, k, v), next)
  {
    assert [(k, v)][1..] == [];
  }

  /** A string key that an array does not mention keeps its value when that array is merged in. */
  lemma {:induction false} MergeIntoOther(acc: OMap<Value>, next: nat, es: OMap<Value>, k: string)
    requires !IsIntKey(k) && k !in Keys(es)
    ensures Get(MergeInto(acc, next, es).0, k) == Get(acc, k)
    decreases |es|
  {
    if es != [] {
      assert Keys(es) == [es[0].0] + Keys(es[1..]);
      if IsIntKey(es[0].0) {
        NatKeyIsIntKey(next);
        MergeIntoOther(Put(acc, NatToString(next), es[0].1), next + 1, es[1..], k);
      } else {
        MergeIntoOther(Put(acc, es[0].0, es[0].1), next, es[1..], k);
      }
    }
  }

  /** PHP's conversion of a value to a string where one is concatenated. */
  function StrOf(v: Value): string {
    match v
    case VNull => ""
    case VBool(b) => if b then "1" else ""
    case VInt(i) => IntToString(i)
    case VStr(s) => s
    case VList(_) => "Array"
    case VMap(_) => "Array"
  }

  // ---------------------------------------------------------------- strings

  predicate StartsAt(s: string, i: nat, sub: string) {
    i + |sub| <= |s| && s[i..i + |sub|] == sub
  }

  /** Index of the leftmost occurrence of `sub` in `s` at or after `from`. */
  function FindFrom(s: string, sub: string, from: nat): (r: Option<nat>)
    requires |sub| > 0
    ensures r.Some? ==> from <= r.value && StartsAt(s, r.value, sub)
    ensures r.Some? ==> forall j :: from <= j < r.value ==> !StartsAt(s, j, sub)
    ensures r.None? ==> forall j :: from <= j ==> !StartsAt(s, j, sub)
    decreases |s| - from
  {
    if from + |sub| > |s| then None
    else if StartsAt(s, from, sub) then Some(from)
    else FindFrom(s, sub, from + 1)
  }

  predicate Contains(s: string, sub: string)
    requires |sub| > 0
  {
    FindFrom(s, sub, 0).Some?
  }

  predicate EndsWith(s: string, suffix: string) {
    |suffix| <= |s| && s[|s| - |suffix|..] == suffix
  }

  /** `explode($sep, $s)`: the pieces between the leftmost non-overlapping occurrences of `sep`. */
  function Split(s: string, sep: string): (parts: seq<string>)
    requires |sep| > 0
    ensures |parts| >= 1
    decreases |s|
  {
    match FindFrom(s, sep, 0)
    case None => [s]
    case Some(j) => [s[..j]] + Split(s[j + |sep|..], sep)
  }

  /** `implode($sep, $parts)`. */
  function Join(parts: seq<string>, sep: string): string {
    if parts == [] then ""
    else if |parts| == 1 then parts[0]
    else parts[0] + sep + Join(parts[1..], sep)
  }

  /** Splitting and joining again gives back the original string. */
  lemma {:induction false} JoinSplit(s: string, sep: string)
    requires |sep| > 0
    ensures Join(Split(s, sep), sep) == s
    decreases |s|
  {
    var f := FindFrom(s, sep, 0);
    if f.Some? {
      var j := f.value;
      var rest := s[j + |sep|..];
      JoinSplit(rest, sep);
      JoinCons(s[..j], Split(rest, sep), sep);
      assert s[j..j + |sep|] == sep;
      SliceThree(s, j, j + |sep|);
    }
  }

  lemma JoinCons(p: string, ps: seq<string>, sep: string)
    requires |ps| >= 1
    ensures Join([p] + ps, sep) == p + sep + Join(ps, sep)
  {
    assert ([p] + ps)[1..] == ps;
  }

  /** A string is its three slices at two cut points. */
  lemma SliceThree(s: string, a: nat, b: nat)
    requires a <= b <= |s|
    ensures s == s[..a] + s[a..b] + s[b..]
  {
    assert s[..a] + s[a..b] == s[..b];
    assert s[..b] + s[b..] == s;
  }

  /** The text before the first occurrence of the separator does not contain it. */
  lemma BeforeFirstLacks(s: string, sep: string, j: nat)
    requires |sep| > 0 && FindFrom(s, sep, 0) == Some(j)
    ensures !Contains(s[..j], sep)
  {
    var p := s[..j];
    var g := FindFrom(p, sep, 0);
    if g.Some? {
      var i := g.value;
      assert p[i..i + |sep|] == s[i..i + |sep|];
      assert StartsAt(s, i, sep);
      assert false;
    }
  }

  /** No piece that `explode` returns contains the separator. */
  lemma {:induction false} SplitPiecesLackSeparator(s: string, sep: string, k: nat)
    requires |sep| > 0 && k < |Split(s, sep)|
    ensures !Contains(Split(s, sep)[k], sep)
    decreases |s|
  {
    var f := FindFrom(s, sep, 0);
    if f.Some? {
      var j := f.value;
      assert Split(s, sep) == [s[..j]] + Split(s[j + |sep|..], sep);
      if k == 0 {
        BeforeFirstLacks(s, sep, j);
      } else {
        SplitPiecesLackSeparator(s[j + |sep|..], sep, k - 1);
      }
    }
  }

  /** A one-character separator that does not occur in `s` is not found in it. */
  lemma CharNotContained(s: string, c: char)
    requires c !in s
    ensures !Contains(s, [c])
  {
    forall j: nat | j + 1 <= |s| ensures !StartsAt(s, j, [c]) {
      assert s[j..j + 1] == [s[j]];
    }
  }

  /** Joining pieces free of a one-character separator and splitting again gives back the pieces. */
  lemma {:induction false} SplitJoin(parts: seq<string>, c: char)
    requires |parts| >= 1
    requires forall i :: 0 <= i < |parts| ==> c !in parts[i]
    ensures Split(Join(parts, [c]), [c]) == parts
  {
    if |parts| == 1 {
      CharNotContained(parts[0], c);
    } else {
      var p := parts[0];
      var rest := Join(parts[1..], [c]);
      assert Join(parts, [c]) == p + [c] + rest;
      SplitFirst(p, rest, c);
      SplitJoin(parts[1..], c);
      assert parts == [p] + parts[1..];
    }
  }

  /** Splitting at a one-character separator that the first piece lacks cuts right after it. */
  lemma SplitFirst(p: string, rest: string, c: char)
    requires c !in p
    ensures Split(p + [c] + rest, [c]) == [p] + Split(rest, [c])
  {
    var s := p + [c] + rest;
    assert StartsAt(s, |p|, [c]) by { assert s[|p|..|p| + 1] == [c]; }
    forall j | 0 <= j < |p| ensures !StartsAt(s, j, [c]) {
      assert s[j..j + 1] == [p[j]];
    }
    var f := FindFrom(s, [c], 0);
    assert f == Some(|p|);
    assert s[..|p|] == p;
    assert s[|p| + 1..] == rest;
  }

  /** `str_replace($from, $to, $s)`: every leftmost non-overlapping occurrence is replaced. */
  function ReplaceAll(s: string, from: string, to: string): string
    requires |from| > 0
  {
    Join(Split(s, from), to)
  }

  /** A string without the needle is left as it is. */
  lemma ReplaceAllAbsent(s: string, from: string, to: string)
    requires |from| > 0 && !Contains(s, from)
    ensures ReplaceAll(s, from, to) == s
  {
  }

  function MapChar(c: char, from: char, to: char): char {
    if c == from then to else c
  }

  /** Replacing a one-character needle is a pointwise character substitution. */
  lemma {:induction false} ReplaceCharPointwise(s: string, from: char, to: char)
    ensures |ReplaceAll(s, [from], [to])| == |s|
    ensures forall i :: 0 <= i < |s| ==> ReplaceAll(s, [from], [to])[i] == MapChar(s[i], from, to)
    decreases |s|
  {
    match FindFrom(s, [from], 0)
    case None =>
      forall i | 0 <= i < |s| ensures s[i] != from {
        assert !StartsAt(s, i, [from]);
        assert s[i..i + 1] == [s[i]];
      }
    case Some(j) =>
      var rest := s[j + 1..];
      ReplaceCharPointwise(rest, from, to);
      var pieces := Split(rest, [from]);
      assert Split(s, [from]) == [s[..j]] + pieces;
      assert ReplaceAll(s, [from], [to]) == s[..j] + [to] + ReplaceAll(rest, [from], [to]);
      forall i | 0 <= i < j ensures s[i] != from {
        assert !StartsAt(s, i, [from]);
        assert s[i..i + 1] == [s[i]];
      }
      assert s[j..j + 1] == [from];
  }

  /** After a one-character replacement the needle no longer occurs (when it differs from its replacement). */
  lemma ReplaceCharRemoves(s: string, from: char, to: char)
    requires from != to
    ensures from !in ReplaceAll(s, [from], [to])
  {
    ReplaceCharPointwise(s, from, to);
    var r := ReplaceAll(s, [from], [to]);
    forall i | 0 <= i < |r| ensures r[i] != from {
      assert r[i] == MapChar(s[i], from, to);
    }
  }

  function LowerChar(c: char): char {
    if 'A' <= c <= 'Z' then (c as int + 32) as char else c
  }

  function UpperChar(c: char): char {
    if 'a' <= c <= 'z' then (c as int - 32) as char else c
  }

  /** `strtolower` in the C locale: ASCII letters only. */
  function Lower(s: string): (r: string)
    ensures |r| == |s| && forall i :: 0 <= i < |s| ==> r[i] == LowerChar(s[i])
  {
    seq(|s|, i requires 0 <= i < |s| => LowerChar(s[i]))
  }

  /** `strtoupper` in the C locale. */
  function Upper(s: string): (r: string)
    ensures |r| == |s| && forall i :: 0 <= i < |s| ==> r[i] == UpperChar(s[i])
  {
    seq(|s|, i requires 0 <= i < |s| => UpperChar(s[i]))
  }

  /** `ucfirst` in the C locale. */
  function UcFirst(s: string): (r: string)
    ensures |r| == |s|
    ensures s != [] ==> r[0] == UpperChar(s[0]) && r[1..] == s[1..]
  {
    if s == [] then s else [UpperChar(s[0])] + s[1..]
  }

  /** `array_values(array_filter($xs, fn($x) => $x !== $drop))`. */
  function Without(xs: seq<string>, drop: string): (r: seq<string>)
    ensures |r| <= |xs|
    ensures forall x :: x in r <==> x in xs && x != drop
  {
    if xs == [] then []
    else if xs[0] == drop then Without(xs[1..], drop)
    else [xs[0]] + Without(xs[1..], drop)
  }
}
