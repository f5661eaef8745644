/** Value-semantics wrappers over Vert.x's mutable JSON containers.

    ImmutableJsonObject and ImmutableJsonArray each hold a private JsonObject or JsonArray
    that no method updates: the public constructors copy their argument deeply, the
    accessors return copies, and every `+` / `-` operator builds its result by changing a
    fresh copy of the receiver step by step. Nested JSON values are values here, so the
    model does not capture that `+` with a raw JsonObject, JsonArray or pair stores the
    caller's nested containers without copying them, where a later change by the caller
    shows through the view. The sealed array hierarchy (ImmutableNullableJsonArray and
    ImmutableNoNullsJsonArray) is one class whose constant `noNulls` names the variant. */
module ImmutableJson {
  import opened Json
  import opened Wrappers
  import opened MutableJson

  // ---------------------------------------------------------------------------
  // What the operators compute, on values

  /** Right-biased merge: `obj + other`. */
  function Merge(a: map<string, Json>, b: map<string, Json>): (r: map<string, Json>)
    ensures r.Keys == a.Keys + b.Keys
    ensures forall k :: k in b ==> r[k] == b[k]
    ensures forall k :: k in a && k !in b ==> r[k] == a[k]
  {
    a + b
  }

  /** `obj - keys`: every listed key is gone, every other entry stays. */
  function WithoutKeys(m: map<string, Json>, keys: seq<string>): (r: map<string, Json>)
    ensures forall k :: k in r <==> k in m && k !in keys
    ensures forall k :: k in r ==> r[k] == m[k]
  {
    m - (set k | k in keys)
  }

  /** `arr - other`: one first-occurrence removal per element of `other`, in order. */
  function RemoveEach(s: seq<Json>, xs: seq<Json>): seq<Json>
    decreases |xs|
  {
    if xs == [] then s else RemoveFirst(RemoveEach(s, xs[..|xs| - 1]), xs[|xs| - 1])
  }

  /** `filterNulls`: the non-null elements, in their original order. */
  function FilterNulls(s: seq<Json>): seq<Json>
  {
    if s == [] then []
    else if s[0] == JNull then FilterNulls(s[1..])
    else [s[0]] + FilterNulls(s[1..])
  }

  // ---------------------------------------------------------------------------
  // Properties of the value operations

  /** `arr - other` takes away exactly one copy of each element of `other` that is still present. */
  lemma {:induction false} RemoveEachMultiset(s: seq<Json>, xs: seq<Json>)
    ensures multiset(RemoveEach(s, xs)) == multiset(s) - multiset(xs)
    decreases |xs|
  {
    if xs != [] {
      var init, last := xs[..|xs| - 1], xs[|xs| - 1];
      var before := RemoveEach(s, init);
      RemoveEachMultiset(s, init);
      RemoveFirstMultiset(before, last);
      assert RemoveEach(s, xs) == RemoveFirst(before, last);
      MultisetSnoc(xs);
      MinusTwice(multiset(s), multiset(init), multiset{last});
    }
  }

  lemma MultisetSnoc(xs: seq<Json>)
    requires xs != []
    ensures multiset(xs) == multiset(xs[..|xs| - 1]) + multiset{xs[|xs| - 1]}
  {
    assert xs == xs[..|xs| - 1] + [xs[|xs| - 1]];
  }

  lemma MinusTwice(a: multiset<Json>, b: multiset<Json>, c: multiset<Json>)
    ensures (a - b) - c == a - (b + c)
  {
    forall y ensures ((a - b) - c)[y] == (a - (b + c))[y] {
    }
  }

  /** Removals never introduce an element, so a null-free array stays null-free. */
  lemma RemoveEachKeepsNoNulls(s: seq<Json>, xs: seq<Json>)
    requires JNull !in s
    ensures JNull !in RemoveEach(s, xs)
  {
    RemoveEachMultiset(s, xs);
    assert multiset(s)[JNull] == 0;
    assert multiset(RemoveEach(s, xs))[JNull] == 0;
  }

  lemma RemoveFirstKeepsNoNulls(s: seq<Json>, x: Json)
    requires JNull !in s
    ensures JNull !in RemoveFirst(s, x)
  {
    RemoveFirstMultiset(s, x);
    assert multiset(s)[JNull] == 0;
    assert multiset(RemoveFirst(s, x))[JNull] == 0;
  }

  /** `filterNulls` keeps every non-null element as often as it occurs, and no null. */
  lemma {:induction false} FilterNullsSpec(s: seq<Json>)
    ensures JNull !in FilterNulls(s)
    ensures forall x :: x != JNull ==> multiset(FilterNulls(s))[x] == multiset(s)[x]
  {
    if s != [] {
      FilterNullsSpec(s[1..]);
      assert s == [s[0]] + s[1..];
    }
  }

  /** `filterNulls` keeps the original order: it distributes over concatenation. */
  lemma {:induction false} FilterNullsAppend(s: seq<Json>, t: seq<Json>)
    ensures FilterNulls(s + t) == FilterNulls(s) + FilterNulls(t)
  {
    if s != [] {
      assert (s + t)[1..] == s[1..] + t;
      FilterNullsAppend(s[1..], t);
    } else {
      assert s + t == t;
    }
  }

  /** On an array without nulls, `filterNulls` changes nothing. */
  lemma {:induction false} FilterNullsIdentity(s: seq<Json>)
    requires JNull !in s
    ensures FilterNulls(s) == s
  {
    if s != [] {
      FilterNullsIdentity(s[1..]);
    }
  }

  /** Puts every entry of `entries` into `target`, one at a time (`forEach { put }`). */
  method PutEach(target: JsonObject, entries: map<string, Json>)
    modifies target
    ensures target.fields == Merge(old(target.fields), entries)
  {
    ghost var start := target.fields;
    var todo := entries.Keys;
    while todo != {}
      invariant todo <= entries.Keys
      invariant target.fields == start + (map k | k in entries && k !in todo :: entries[k])
      decreases todo
    {
      var k :| k in todo;
      target.Put(k, entries[k]);
      todo := todo - {k};
    }
    assert (map k | k in entries && k !in todo :: entries[k]) == entries;
  }

  /** What `getValue` returns: nested objects and arrays come back wrapped as immutable views. */
  datatype Element =
    | Plain(value: Json)
    | ObjectView(obj: ImmutableJsonObject)
    | ArrayView(arr: ImmutableJsonArray)

  // ---------------------------------------------------------------------------
  // ImmutableJsonObject

  /** What an ImmutableJsonObject can be compared with by `equals`. */
  datatype ObjectComparand =
    | AnImmutableObject(imm: ImmutableJsonObject)
    | AJsonObject(raw: JsonObject)
    | SomethingElse

  class ImmutableJsonObject {
    const obj: JsonObject

    /** The public constructor: the view holds its own copy of `src`. */
    constructor (src: JsonObject)
      ensures fresh(obj) && obj.fields == src.fields
    {
      obj := new JsonObject(src.fields);
    }

    /** The internal constructor: with `copy` false the view adopts `src` itself. */
    constructor Internal(src: JsonObject, copy: bool)
      ensures copy ==> fresh(obj) && obj.fields == src.fields
      ensures !copy ==> obj == src
    {
      if copy {
        obj := new JsonObject(src.fields);
      } else {
        obj := src;
      }
    }

    /** The entries the view stands for. */
    function Value(): map<string, Json>
      reads obj
    {
      obj.fields
    }

    function ContainsKey(key: string): (b: bool)
      reads obj
      ensures b <==> key in Value()
      ensures b ==> Size() > 0
    {
      key in obj.fields
    }

    function Size(): (n: nat)
      reads obj
      ensures n == |Value().Keys|
    {
      |obj.fields|
    }

    function IsEmpty(): (b: bool)
      reads obj
      ensures b <==> Size() == 0
    {
      obj.fields == map[]
    }

    /** `equals`: the same entries as another immutable view or as a raw JsonObject; never
        equal to anything else. */
    method Equals(other: ObjectComparand) returns (b: bool)
      ensures other.SomethingElse? ==> !b
      ensures other.AnImmutableObject? ==> (b <==> Value() == other.imm.obj.fields)
      ensures other.AJsonObject? ==> (b <==> Value() == other.raw.fields)
    {
      match other
      case AnImmutableObject(imm) => b := obj.fields == imm.obj.fields;
      case AJsonObject(raw) => b := obj.fields == raw.fields;
      case SomethingElse => b := false;
    }

    /** `getValue(key)` through `makeImmutable`: null when absent, nested containers wrapped. */
    method GetValue(key: string) returns (e: Element)
      ensures e.Plain? ==> e.value == Lookup(Value(), key) && !e.value.JObj? && !e.value.JArr?
      ensures e.ObjectView? ==> fresh(e.obj) && Lookup(Value(), key) == JObj(e.obj.Value())
      ensures e.ArrayView? ==> fresh(e.arr) && !e.arr.noNulls && Lookup(Value(), key) == JArr(e.arr.Items())
    {
      e := MakeImmutable(Lookup(obj.fields, key));
    }

    /** `toJsonObject`: a copy the caller may change freely. */
    method ToJsonObject() returns (c: JsonObject)
      ensures fresh(c) && c.fields == Value()
    {
      c := obj.Copy();
    }

    method Copy() returns (r: ImmutableJsonObject)
      ensures fresh(r) && fresh(r.obj) && r.Value() == Value()
    {
      r := new ImmutableJsonObject(obj);
    }

    /** `obj + other` for a JsonObject `other`. */
    method PlusObject(other: JsonObject) returns (r: ImmutableJsonObject)
      ensures fresh(r) && fresh(r.obj)
      ensures r.Value() == Merge(Value(), other.fields)
    {
      var c := obj.Copy();
      PutEach(c, other.fields);
      r := new ImmutableJsonObject.Internal(c, false);
    }

    /** `obj + (key to value)`. */
    method PlusPair(key: string, value: Json) returns (r: ImmutableJsonObject)
      ensures fresh(r) && fresh(r.obj)
      ensures r.Value() == Value()[key := value]
      ensures r.ContainsKey(key) && r.Size() == if ContainsKey(key) then Size() else Size() + 1
    {
      var c := obj.Copy();
      c.Put(key, value);
      r := new ImmutableJsonObject.Internal(c, false);
    }

    /** `obj + other` for another immutable view. */
    method PlusImmutable(other: ImmutableJsonObject) returns (r: ImmutableJsonObject)
      ensures fresh(r) && fresh(r.obj)
      ensures r.Value() == Merge(Value(), other.Value())
    {
      var c := obj.Copy();
      PutEach(c, other.obj.fields);
      r := new ImmutableJsonObject.Internal(c, false);
    }

    /** `obj - key`. */
    method MinusKey(key: string) returns (r: ImmutableJsonObject)
      ensures fresh(r) && fresh(r.obj)
      ensures r.Value() == WithoutKeys(Value(), [key])
      ensures !r.ContainsKey(key) && r.Size() == if ContainsKey(key) then Size() - 1 else Size()
    {
      var c := obj.Copy();
      var _ := c.Remove(key);
      r := new ImmutableJsonObject.Internal(c, false);
    }

    /** `obj - keys`, removing the keys one at a time. */
    method MinusKeys(keys: seq<string>) returns (r: ImmutableJsonObject)
      ensures fresh(r) && fresh(r.obj)
      ensures r.Value() == WithoutKeys(Value(), keys)
    {
      var c := obj.Copy();
      var i := 0;
      while i < |keys|
        invariant 0 <= i <= |keys|
        invariant c.fields == WithoutKeys(obj.fields, keys[..i])
      {
        var _ := c.Remove(keys[i]);
        i := i + 1;
      }
      assert keys[..i] == keys;
      r := new ImmutableJsonObject.Internal(c, false);
    }
  }

  /** `makeImmutable`: wraps a nested object or array in a view; other values pass through. */
  method MakeImmutable(v: Json) returns (e: Element)
    ensures e.Plain? <==> !v.JObj? && !v.JArr?
    ensures e.Plain? ==> e.value == v
    ensures e.ObjectView? ==> fresh(e.obj) && v == JObj(e.obj.Value())
    ensures e.ArrayView? ==> fresh(e.arr) && !e.arr.noNulls && v == JArr(e.arr.Items())
  {
    if v.JObj? {
      var o := new JsonObject(v.fields);
      var view := new ImmutableJsonObject.Internal(o, false);
      e := ObjectView(view);
    } else if v.JArr? {
      var a := new JsonArray(v.items);
      var view := new ImmutableJsonArray.Nullable(a, false);
      e := ArrayView(view);
    } else {
      e := Plain(v);
    }
  }

  // ---------------------------------------------------------------------------
  // ImmutableNullableJsonArray and ImmutableNoNullsJsonArray

  /** Why building a no-nulls array or removing at an index fails. */
  datatype ArrayError = NullElement | IndexOutOfBounds(index: int)

  /** What `equals` on an array view may be handed: another view of either variant, a
      raw JsonArray, or anything else. */
  datatype ArrayComparand =
    | AnImmutableArray(imm: ImmutableJsonArray)
    | AJsonArray(raw: JsonArray)
    | NotAnArray

  class ImmutableJsonArray {
    const arr: JsonArray
    /** True for ImmutableNoNullsJsonArray, false for ImmutableNullableJsonArray. */
    const noNulls: bool

    /** The no-nulls variant never holds null. */
    ghost predicate Valid()
      reads arr
    {
      noNulls ==> JNull !in arr.items
    }

    /** The public ImmutableNullableJsonArray constructor: a view over its own copy. */
    constructor NullableCopy(src: JsonArray)
      ensures fresh(arr) && arr.items == src.items && !noNulls && Valid()
    {
      arr := new JsonArray(src.items);
      noNulls := false;
    }

    /** The internal ImmutableNullableJsonArray constructor. */
    constructor Nullable(src: JsonArray, copy: bool)
      ensures copy ==> fresh(arr) && arr.items == src.items
      ensures !copy ==> arr == src
      ensures !noNulls && Valid()
    {
      if copy {
        arr := new JsonArray(src.items);
      } else {
        arr := src;
      }
      noNulls := false;
    }

    /** The private ImmutableNoNullsJsonArray constructor, used only where the
        elements are already known to be non-null. */
    constructor NoNullsUnchecked(src: JsonArray)
      requires JNull !in src.items
      ensures arr == src && noNulls && Valid()
    {
      arr := src;
      noNulls := true;
    }

    function Items(): seq<Json>
      reads arr
    {
      arr.items
    }

    function Size(): (n: nat)
      reads arr
      ensures n == |Items()|
    {
      |arr.items|
    }

    function IsEmpty(): (b: bool)
      reads arr
      ensures b <==> Size() == 0
    {
      arr.items == []
    }

    function Contains(x: Json): (b: bool)
      reads arr
      ensures b <==> exists i :: 0 <= i < |Items()| && Items()[i] == x
      ensures b && Valid() && noNulls ==> x != JNull
    {
      assert x in arr.items ==> Items()[IndexOf(Items(), x)] == x;
      x in arr.items
    }

    /** `equals`: both variants compare by their elements alone. */
    method Equals(other: ArrayComparand) returns (b: bool)
      ensures other.NotAnArray? ==> !b
      ensures other.AnImmutableArray? ==>
        (b <==> |Items()| == |other.imm.Items()| && forall i :: 0 <= i < |Items()| ==> Items()[i] == other.imm.Items()[i])
      ensures other.AJsonArray? ==>
        (b <==> |Items()| == |other.raw.items| && forall i :: 0 <= i < |Items()| ==> Items()[i] == other.raw.items[i])
    {
      match other
      case AnImmutableArray(imm) => b := arr.items == imm.arr.items;
      case AJsonArray(raw) => b := arr.items == raw.items;
      case NotAnArray => b := false;
    }

    /** `getValue(pos)` through `makeImmutable`. */
    method GetValueAt(pos: int) returns (r: Result<Element, ArrayError>)
      ensures r.Err? <==> !(0 <= pos < Size())
      ensures r.Err? ==> r.error == IndexOutOfBounds(pos)
      ensures r.Ok? && r.value.Plain? ==> r.value.value == Items()[pos]
      ensures r.Ok? && r.value.ObjectView? ==> Items()[pos] == JObj(r.value.obj.Value())
      ensures r.Ok? && r.value.ArrayView? ==> Items()[pos] == JArr(r.value.arr.Items())
      ensures Valid() && noNulls && r.Ok? ==> r.value != Plain(JNull)
    {
      if 0 <= pos < |arr.items| {
        var e := MakeImmutable(arr.items[pos]);
        r := Ok(e);
      } else {
        r := Err(IndexOutOfBounds(pos));
      }
    }

    /** `toJsonArray`: a copy the caller may change freely. */
    method ToJsonArray() returns (c: JsonArray)
      ensures fresh(c) && c.items == Items()
    {
      c := arr.Copy();
    }

    /** `copy()`: the nullable variant copies; the no-nulls variant copies through the
        null filter, which then changes nothing. */
    method Copy() returns (r: ImmutableJsonArray)
      requires Valid()
      ensures fresh(r) && fresh(r.arr) && r.Valid()
      ensures r.Items() == Items() && r.noNulls == noNulls
    {
      if noNulls {
        var c := arr.Copy();
        FilterNullsIdentity(c.items);
        var res := MakeNoNulls(c, true);
        r := res.value;
      } else {
        r := new ImmutableJsonArray.NullableCopy(arr);
      }
    }

    /** `arr + item`: appended at the end; the result is the nullable variant. */
    method PlusItem(x: Json) returns (r: ImmutableJsonArray)
      ensures fresh(r) && fresh(r.arr) && !r.noNulls && r.Valid()
      ensures r.Items() == Items() + [x]
      ensures r.Size() == Size() + 1 && r.Items()[..Size()] == Items()
    {
      var c := arr.Copy();
      c.Add(x);
      r := new ImmutableJsonArray.Nullable(c, false);
    }

    /** `arr + other` for a JsonArray `other`: in-order concatenation. */
    method PlusJsonArray(other: JsonArray) returns (r: ImmutableJsonArray)
      ensures fresh(r) && fresh(r.arr) && !r.noNulls && r.Valid()
      ensures r.Items() == Items() + other.items
    {
      var c := arr.Copy();
      c.AddAll(other.items);
      r := new ImmutableJsonArray.Nullable(c, false);
    }

    /** `arr + other` for any immutable array `other`. */
    method PlusArray(other: ImmutableJsonArray) returns (r: ImmutableJsonArray)
      ensures fresh(r) && fresh(r.arr) && !r.noNulls && r.Valid()
      ensures r.Items() == Items() + other.Items()
    {
      var c := arr.Copy();
      c.AddAll(other.arr.items);
      r := new ImmutableJsonArray.Nullable(c, false);
    }

    /** ImmutableNoNullsJsonArray's `plus` with another no-nulls array stays no-nulls. */
    method PlusNoNulls(other: ImmutableJsonArray) returns (r: ImmutableJsonArray)
      requires noNulls && other.noNulls && Valid() && other.Valid()
      ensures fresh(r) && fresh(r.arr) && r.noNulls && r.Valid()
      ensures r.Items() == Items() + other.Items()
    {
      var c := arr.Copy();
      c.AddAll(other.arr.items);
      r := new ImmutableJsonArray.NoNullsUnchecked(c);
    }

    /** Removes the first occurrence of each element of `xs` from a fresh copy, one by one. */
    method RemoveEachFromCopy(xs: seq<Json>) returns (c: JsonArray)
      ensures fresh(c) && c.items == RemoveEach(Items(), xs)
    {
      c := arr.Copy();
      var i := 0;
      while i < |xs|
        invariant 0 <= i <= |xs|
        invariant c.items == RemoveEach(arr.items, xs[..i])
      {
        var _ := c.RemoveValue(xs[i]);
        assert xs[..i + 1][..i] == xs[..i];
        i := i + 1;
      }
      assert xs[..i] == xs;
    }

    /** Wraps a freshly computed copy in the receiver's own variant. */
    method SameVariant(c: JsonArray) returns (r: ImmutableJsonArray)
      requires noNulls ==> JNull !in c.items
      ensures r.arr == c && r.noNulls == noNulls && r.Valid() && fresh(r)
    {
      if noNulls {
        r := new ImmutableJsonArray.NoNullsUnchecked(c);
      } else {
        r := new ImmutableJsonArray.Nullable(c, false);
      }
    }

    /** `arr - other` for a JsonArray `other`; the variant is kept. */
    method MinusJsonArray(other: JsonArray) returns (r: ImmutableJsonArray)
      requires Valid()
      ensures fresh(r) && fresh(r.arr) && r.noNulls == noNulls && r.Valid()
      ensures r.Items() == RemoveEach(Items(), other.items)
    {
      var c := RemoveEachFromCopy(other.items);
      if noNulls {
        RemoveEachKeepsNoNulls(arr.items, other.items);
      }
      r := SameVariant(c);
    }

    /** `arr - other` for any immutable array `other`; the variant is kept. */
    method MinusArray(other: ImmutableJsonArray) returns (r: ImmutableJsonArray)
      requires Valid()
      ensures fresh(r) && fresh(r.arr) && r.noNulls == noNulls && r.Valid()
      ensures r.Items() == RemoveEach(Items(), other.Items())
    {
      var c := RemoveEachFromCopy(other.arr.items);
      if noNulls {
        RemoveEachKeepsNoNulls(arr.items, other.arr.items);
      }
      r := SameVariant(c);
    }

    /** `arr - item`: only the first occurrence goes; the variant is kept. */
    method MinusItem(x: Json) returns (r: ImmutableJsonArray)
      requires Valid()
      ensures fresh(r) && fresh(r.arr) && r.noNulls == noNulls && r.Valid()
      ensures r.Items() == RemoveFirst(Items(), x)
    {
      var c := arr.Copy();
      var _ := c.RemoveValue(x);
      if noNulls {
        RemoveFirstKeepsNoNulls(arr.items, x);
      }
      r := SameVariant(c);
    }

    /** `arr - index`: drops the element at that position, or fails as the list does. */
    method MinusIndex(pos: int) returns (r: Result<ImmutableJsonArray, ArrayError>)
      requires Valid()
      ensures r.Err? <==> !(0 <= pos < Size())
      ensures r.Err? ==> r.error == IndexOutOfBounds(pos)
      ensures r.Ok? ==> fresh(r.value) && fresh(r.value.arr) && r.value.noNulls == noNulls && r.value.Valid()
      ensures r.Ok? ==> r.value.Items() == Items()[..pos] + Items()[pos + 1..]
    {
      var c := arr.Copy();
      var ok := c.RemoveAt(pos);
      if ok {
        assert forall k :: 0 <= k < |c.items| ==> c.items[k] in arr.items;
        var view := SameVariant(c);
        r := Ok(view);
      } else {
        r := Err(IndexOutOfBounds(pos));
      }
    }

    /** `noNulls()` on a nullable array: the same elements, without copying, or a failure
        when one of them is null. */
    method NoNulls() returns (r: Result<ImmutableJsonArray, ArrayError>)
      requires !noNulls
      ensures r.Err? <==> JNull in Items()
      ensures r.Err? ==> r.error == NullElement
      ensures r.Ok? ==> r.value.noNulls && r.value.Valid() && r.value.arr == arr
    {
      r := MakeNoNulls(arr, false);
    }

    /** `filterNulls()` on a nullable array: a copy without the nulls. */
    method FilterNullElements() returns (r: ImmutableJsonArray)
      requires !noNulls
      ensures fresh(r) && fresh(r.arr) && r.noNulls && r.Valid()
      ensures r.Items() == FilterNulls(Items())
    {
      var res := MakeNoNulls(arr, true);
      r := res.value;
    }
  }

  /** The internal ImmutableNoNullsJsonArray constructor: with `filterNulls` it keeps a
      null-free copy, otherwise it adopts `src` as it is and fails when it holds a null. */
  method MakeNoNulls(src: JsonArray, filterNulls: bool) returns (r: Result<ImmutableJsonArray, ArrayError>)
    ensures filterNulls ==> r.Ok? && fresh(r.value) && fresh(r.value.arr) && r.value.Items() == FilterNulls(src.items)
    ensures !filterNulls ==> (r.Err? <==> JNull in src.items)
    ensures !filterNulls && r.Ok? ==> r.value.arr == src
    ensures r.Err? ==> r.error == NullElement
    ensures r.Ok? ==> r.value.noNulls && r.value.Valid()
  {
    if filterNulls {
      FilterNullsSpec(src.items);
      var c := new JsonArray(FilterNulls(src.items));
      var view := new ImmutableJsonArray.NoNullsUnchecked(c);
      r := Ok(view);
    } else if JNull !in src.items {
      var view := new ImmutableJsonArray.NoNullsUnchecked(src);
      r := Ok(view);
    } else {
      r := Err(NullElement);
    }
  }

  // ---------------------------------------------------------------------------
  // Value semantics, as a caller sees it

  /** Changing the JsonObject a view was built from leaves the view as it was. */
  method SourceMutationIsInvisible(src: JsonObject, key: string, value: Json) returns (view: ImmutableJsonObject)
    modifies src
    ensures view.Value() == old(src.fields)
    ensures src.fields == old(src.fields)[key := value]
  {
    view := new ImmutableJsonObject(src);
    src.Put(key, value);
  }

  /** Changing what `toJsonObject` returned leaves the view as it was. */
  method CopyMutationIsInvisible(view: ImmutableJsonObject, key: string) returns (c: JsonObject)
    ensures view.Value() == c.fields + (if key in view.Value() then map[key := view.Value()[key]] else map[])
    ensures key !in c.fields
  {
    c := view.ToJsonObject();
    var _ := c.Remove(key);
  }

  /** `obj + (k to v)` leaves the receiver itself unchanged. */
  method PlusLeavesReceiver(view: ImmutableJsonObject, key: string, value: Json) returns (r: ImmutableJsonObject)
    ensures view.Value() == old(view.Value())
    ensures r.Value() == view.Value()[key := value]
  {
    r := view.PlusPair(key, value);
  }

  /** Changing the JsonArray an array view was built from leaves the view as it was. */
  method ArraySourceMutationIsInvisible(src: JsonArray, x: Json) returns (view: ImmutableJsonArray)
    modifies src
    ensures view.Items() == old(src.items)
    ensures src.items == old(src.items) + [x]
  {
    view := new ImmutableJsonArray.NullableCopy(src);
    src.Add(x);
  }
}
