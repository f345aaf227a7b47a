/** The model maps a ModelAndViewContainer writes to. A ModelMap is a LinkedHashMap from attribute
    names to values: its entries keep the order in which their keys were first inserted, putting an
    existing key replaces the value in place, and its text form lists the entries in that order. */
module ModelMaps {
  import opened Wrappers

  /** An attribute value as far as the model map sees it: null, an object with the text its
      toString gives, or a collection with its text and its size. */
  datatype Value =
    | Null
    | Object(display: string)
    | Collection(display: string, size: nat)

  /** String.valueOf(value). */
  function Display(v: Value): string
  {
    match v
    case Null => "null"
    case Object(display) => display
    case Collection(display, _) => display
  }

  /** The entries of a linked map: the keys in insertion order, and the value of each key. */
  datatype AttributeMap = AttributeMap(keys: seq<string>, values: map<string, Value>)

  const EMPTY := AttributeMap([], map[])

  /** Every listed key has a value. */
  predicate Listed(m: AttributeMap)
  {
    forall i :: 0 <= i < |m.keys| ==> m.keys[i] in m.values
  }

  /** The keys are distinct and are exactly the keys that have a value. */
  ghost predicate Wf(m: AttributeMap)
  {
    && Listed(m)
    && (forall i, j :: 0 <= i < j < |m.keys| ==> m.keys[i] != m.keys[j])
    && (forall k :: k in m.values ==> k in m.keys)
  }

  /** Map.put: a new key goes to the end of the order, an existing key keeps its place. */
  function Put(m: AttributeMap, k: string, v: Value): AttributeMap
  {
    if k in m.values then AttributeMap(m.keys, m.values[k := v])
    else AttributeMap(m.keys + [k], m.values[k := v])
  }

  /** Putting keeps the map well formed. */
  lemma PutWf(m: AttributeMap, k: string, v: Value)
    requires Wf(m)
    ensures Wf(Put(m, k, v))
  {
    var r := Put(m, k, v);
    if k !in m.values {
      assert forall i :: 0 <= i < |m.keys| ==> r.keys[i] == m.keys[i];
      assert r.keys[|m.keys|] == k;
    }
  }

  /** Putting the first `n` entries of `o`, in o's order. */
  function PutEach(m: AttributeMap, o: AttributeMap, n: nat): AttributeMap
    requires Listed(o) && n <= |o.keys|
  {
    if n == 0 then m
    else
      var k := o.keys[n - 1];
      Put(PutEach(m, o, n - 1), k, o.values[k])
  }

  /** Map.putAll, which ModelMap.addAllAttributes performs for a non-null map. */
  function PutAll(m: AttributeMap, o: AttributeMap): AttributeMap
    requires Listed(o)
  {
    PutEach(m, o, |o.keys|)
  }

  /** Merging the first `n` entries of `o`: a key already present is left alone. */
  function MergeEach(m: AttributeMap, o: AttributeMap, n: nat): AttributeMap
    requires Listed(o) && n <= |o.keys|
  {
    if n == 0 then m
    else
      var p := MergeEach(m, o, n - 1);
      var k := o.keys[n - 1];
      if k in p.values then p else Put(p, k, o.values[k])
  }

  /** ModelMap.mergeAttributes for a non-null map. */
  function Merge(m: AttributeMap, o: AttributeMap): AttributeMap
    requires Listed(o)
  {
    MergeEach(m, o, |o.keys|)
  }

  lemma {:induction false} PutEachWf(m: AttributeMap, o: AttributeMap, n: nat)
    requires Wf(m) && Listed(o) && n <= |o.keys|
    ensures Wf(PutEach(m, o, n))
  {
    if n > 0 {
      PutEachWf(m, o, n - 1);
      PutWf(PutEach(m, o, n - 1), o.keys[n - 1], o.values[o.keys[n - 1]]);
    }
  }

  lemma {:induction false} MergeEachWf(m: AttributeMap, o: AttributeMap, n: nat)
    requires Wf(m) && Listed(o) && n <= |o.keys|
    ensures Wf(MergeEach(m, o, n))
  {
    if n > 0 {
      MergeEachWf(m, o, n - 1);
      PutWf(MergeEach(m, o, n - 1), o.keys[n - 1], o.values[o.keys[n - 1]]);
    }
  }

  /** After putting a prefix of o's entries, a key has a value iff it had one or is in the prefix,
      and the prefix's value wins. */
  lemma {:induction false} PutEachValues(m: AttributeMap, o: AttributeMap, n: nat)
    requires Listed(o) && n <= |o.keys|
    ensures forall k :: k in PutEach(m, o, n).values <==> k in m.values || k in o.keys[..n]
    ensures forall k :: k in PutEach(m, o, n).values ==>
      PutEach(m, o, n).values[k] == if k in o.keys[..n] then o.values[k] else m.values[k]
  {
    if n > 0 {
      PutEachValues(m, o, n - 1);
      assert o.keys[..n] == o.keys[..n - 1] + [o.keys[n - 1]];
    }
  }

  /** After merging a prefix of o's entries, a key has a value iff it had one or is in the prefix,
      and a value that was there before wins. */
  lemma {:induction false} MergeEachValues(m: AttributeMap, o: AttributeMap, n: nat)
    requires Listed(o) && n <= |o.keys|
    ensures forall k :: k in MergeEach(m, o, n).values <==> k in m.values || k in o.keys[..n]
    ensures forall k :: k in MergeEach(m, o, n).values ==>
      MergeEach(m, o, n).values[k] == if k in m.values then m.values[k] else o.values[k]
  {
    if n > 0 {
      MergeEachValues(m, o, n - 1);
      assert o.keys[..n] == o.keys[..n - 1] + [o.keys[n - 1]];
    }
  }

  lemma AllKeys(o: AttributeMap)
    requires Wf(o)
    ensures forall k :: k in o.keys[..|o.keys|] <==> k in o.values
  {
    assert o.keys[..|o.keys|] == o.keys;
  }

  /** putAll is map union in which the added entries win. */
  lemma PutAllValues(m: AttributeMap, o: AttributeMap)
    requires Wf(o)
    ensures PutAll(m, o).values == m.values + o.values
  {
    PutEachValues(m, o, |o.keys|);
    AllKeys(o);
  }

  /** mergeAttributes is map union in which the existing entries win: no existing key is
      replaced, and every key of the merged map gains a value. */
  lemma MergeValues(m: AttributeMap, o: AttributeMap)
    requires Wf(o)
    ensures Merge(m, o).values == o.values + m.values
    ensures forall k :: k in m.values ==> Merge(m, o).values[k] == m.values[k]
  {
    MergeEachValues(m, o, |o.keys|);
    AllKeys(o);
  }

  lemma PutEachHas(m: AttributeMap, o: AttributeMap, n: nat, k: string)
    requires Listed(o) && n <= |o.keys|
    ensures k in PutEach(m, o, n).values <==> k in m.values || k in o.keys[..n]
  {
    PutEachValues(m, o, n);
  }

  lemma MergeEachHas(m: AttributeMap, o: AttributeMap, n: nat, k: string)
    requires Listed(o) && n <= |o.keys|
    ensures k in MergeEach(m, o, n).values <==> k in m.values || k in o.keys[..n]
  {
    MergeEachValues(m, o, n);
  }

  /** Merging and putting the same entries give the same key order: both append the new keys in
      the order of the map they come from. */
  lemma {:induction false} MergeEachKeyOrder(m: AttributeMap, o: AttributeMap, n: nat)
    requires Listed(o) && n <= |o.keys|
    ensures MergeEach(m, o, n).keys == PutEach(m, o, n).keys
  {
    if n > 0 {
      MergeEachKeyOrder(m, o, n - 1);
      var p, q := MergeEach(m, o, n - 1), PutEach(m, o, n - 1);
      var k := o.keys[n - 1];
      PutEachHas(m, o, n - 1, k);
      MergeEachHas(m, o, n - 1, k);
      assert PutEach(m, o, n) == Put(q, k, o.values[k]);
      assert MergeEach(m, o, n) == if k in p.values then p else Put(p, k, o.values[k]);
    }
  }

  /** Merging entries whose keys are all present changes nothing. */
  lemma {:induction false} MergeEachPresent(m: AttributeMap, o: AttributeMap, n: nat)
    requires Listed(o) && n <= |o.keys|
    requires forall i :: 0 <= i < n ==> o.keys[i] in m.values
    ensures MergeEach(m, o, n) == m
  {
    if n > 0 {
      MergeEachPresent(m, o, n - 1);
      assert MergeEach(m, o, n - 1) == m;
      assert o.keys[n - 1] in m.values;
    }
  }

  /** Merging the same map twice is merging it once. */
  lemma MergeIdempotent(m: AttributeMap, o: AttributeMap)
    requires Listed(o)
    ensures Merge(Merge(m, o), o) == Merge(m, o)
  {
    var p := Merge(m, o);
    MergeEachValues(m, o, |o.keys|);
    assert o.keys[..|o.keys|] == o.keys;
    MergeEachPresent(p, o, |o.keys|);
  }

  /** The `k=v` entries, separated by ", ". */
  function RenderEntries(keys: seq<string>, values: map<string, Value>): string
    requires forall i :: 0 <= i < |keys| ==> keys[i] in values
  {
    if keys == [] then ""
    else if |keys| == 1 then keys[0] + "=" + Display(values[keys[0]])
    else keys[0] + "=" + Display(values[keys[0]]) + ", " + RenderEntries(keys[1..], values)
  }

  /** AbstractMap.toString: the entries in order between braces. */
  function Render(m: AttributeMap): (s: string)
    requires Listed(m)
    ensures |s| >= 2 && s[0] == '{' && s[|s| - 1] == '}'
    ensures m.keys == [] ==> s == "{}"
  {
    "{" + RenderEntries(m.keys, m.values) + "}"
  }

  /** A ModelMap object: its attributes are replaced as the container writes to it. */
  class ModelMap {
    var attributes: AttributeMap

    ghost predicate Valid()
      reads this
    {
      Wf(attributes)
    }

    /** A new, empty model map. */
    constructor ()
      ensures Valid() && attributes == EMPTY
    {
      attributes := EMPTY;
    }

    /** ModelMap.addAttribute(String, Object). */
    method AddAttribute(name: string, value: Value)
      requires Valid()
      modifies this
      ensures Valid()
      ensures attributes == Put(old(attributes), name, value)
    {
      PutWf(attributes, name, value);
      attributes := Put(attributes, name, value);
    }

    /** ModelMap.addAttribute(Object): a null value is rejected (Assert.notNull throws an
        IllegalArgumentException), an empty collection is skipped, and any other value is added
        under the name the naming convention gives it. */
    method AddAttributeByConvention(value: Value, nameOf: Value -> string) returns (rejected: bool)
      requires Valid()
      modifies this
      ensures Valid()
      ensures rejected <==> value.Null?
      ensures attributes ==
        if value.Null? || (value.Collection? && value.size == 0) then old(attributes)
        else Put(old(attributes), nameOf(value), value)
    {
      if value.Null? {
        return true;
      }
      rejected := false;
      if value.Collection? && value.size == 0 {
        return;
      }
      PutWf(attributes, nameOf(value), value);
      attributes := Put(attributes, nameOf(value), value);
    }

    /** ModelMap.addAllAttributes: puts the entries one by one; a null map adds nothing. */
    method AddAllAttributes(other: Option<AttributeMap>)
      requires Valid()
      requires other.Some? ==> Wf(other.value)
      modifies this
      ensures Valid()
      ensures attributes == if other.None? then old(attributes) else PutAll(old(attributes), other.value)
    {
      if other.None? {
        return;
      }
      var o := other.value;
      var i := 0;
      while i < |o.keys|
        invariant 0 <= i <= |o.keys|
        invariant Wf(attributes)
        invariant attributes == PutEach(old(attributes), o, i)
      {
        var key := o.keys[i];
        PutWf(attributes, key, o.values[key]);
        attributes := Put(attributes, key, o.values[key]);
        i := i + 1;
      }
    }

    /** ModelMap.mergeAttributes: puts each entry whose key is not present yet; a null map adds
        nothing. */
    method MergeAttributes(other: Option<AttributeMap>)
      requires Valid()
      requires other.Some? ==> Wf(other.value)
      modifies this
      ensures Valid()
      ensures attributes == if other.None? then old(attributes) else Merge(old(attributes), other.value)
    {
      if other.None? {
        return;
      }
      var o := other.value;
      var i := 0;
      while i < |o.keys|
        invariant 0 <= i <= |o.keys|
        invariant Wf(attributes)
        invariant attributes == MergeEach(old(attributes), o, i)
      {
        var key := o.keys[i];
        ghost var before := attributes;
        if !ContainsAttribute(key) {
          PutWf(attributes, key, o.values[key]);
          attributes := Put(attributes, key, o.values[key]);
        }
        assert attributes == if key in before.values then before else Put(before, key, o.values[key]);
        i := i + 1;
      }
    }

    /** ModelMap.containsAttribute. */
    function ContainsAttribute(name: string): (b: bool)
      requires Valid()
      reads this
      ensures b <==> name in attributes.keys
    {
      name in attributes.values
    }

    /** The text form of the map. */
    function ToString(): (s: string)
      requires Valid()
      reads this
    {
      Render(attributes)
    }
  }
}
