/** Vert.x's mutable JSON containers, the ones the immutable wrappers copy and the
    controller and repository code update in place. Only the operations the core
    uses are modelled; key order inside an object is not. */
module MutableJson {
  import opened Json

  /** Index of the first occurrence of `x` in `s`. */
  function IndexOf(s: seq<Json>, x: Json): (i: nat)
    requires x in s
    ensures i < |s| && s[i] == x && x !in s[..i]
  {
    if s[0] == x then 0 else 1 + IndexOf(s[1..], x)
  }

  /** JsonArray.remove(Object): drops the first element equal to `x`, if any. */
  function RemoveFirst(s: seq<Json>, x: Json): seq<Json>
  {
    if x in s then s[..IndexOf(s, x)] + s[IndexOf(s, x) + 1..] else s
  }

  /** Removing one occurrence takes exactly one copy of `x` out of the multiset of elements. */
  lemma RemoveFirstMultiset(s: seq<Json>, x: Json)
    ensures multiset(RemoveFirst(s, x)) == multiset(s) - multiset{x}
    ensures |RemoveFirst(s, x)| == if x in s then |s| - 1 else |s|
  {
    if x in s {
      var i := IndexOf(s, x);
      assert s == s[..i] + [x] + s[i + 1..];
      calc {
        multiset(s);
        multiset(s[..i]) + multiset{x} + multiset(s[i + 1..]);
        multiset(RemoveFirst(s, x)) + multiset{x};
      }
    } else {
      assert multiset(s)[x] == 0;
    }
  }

  class JsonObject {
    var fields: map<string, Json>

    constructor (fields: map<string, Json>)
      ensures this.fields == fields
    {
      this.fields := fields;
    }

    /** JsonObject.put: binds `key`, also to null. */
    method Put(key: string, value: Json)
      modifies this
      ensures fields == old(fields)[key := value]
    {
      fields := fields[key := value];
    }

    /** JsonObject.remove: unbinds `key` and returns what it held (null when absent). */
    method Remove(key: string) returns (previous: Json)
      modifies this
      ensures fields == old(fields) - {key}
      ensures previous == Lookup(old(fields), key)
    {
      previous := Lookup(fields, key);
      fields := fields - {key};
    }

    /** JsonObject.mergeIn(other): the shallow merge, every entry of `other` put over this one. */
    method MergeIn(other: map<string, Json>)
      modifies this
      ensures fields == old(fields) + other
    {
      fields := fields + other;
    }

    method Copy() returns (c: JsonObject)
      ensures fresh(c) && c.fields == fields
    {
      c := new JsonObject(fields);
    }
  }

  class JsonArray {
    var items: seq<Json>

    constructor (items: seq<Json>)
      ensures this.items == items
    {
      this.items := items;
    }

    method Add(x: Json)
      modifies this
      ensures items == old(items) + [x]
    {
      items := items + [x];
    }

    method AddAll(xs: seq<Json>)
      modifies this
      ensures items == old(items) + xs
    {
      items := items + xs;
    }

    /** JsonArray.remove(Object): removes the first equal element and says whether there was one. */
    method RemoveValue(x: Json) returns (found: bool)
      modifies this
      ensures found <==> x in old(items)
      ensures items == RemoveFirst(old(items), x)
    {
      found := x in items;
      items := RemoveFirst(items, x);
    }

    /** JsonArray.remove(int): removes the element at `pos`; `ok` is false where the list
        would throw IndexOutOfBoundsException, and then nothing changes. */
    method RemoveAt(pos: int) returns (ok: bool)
      modifies this
      ensures ok <==> 0 <= pos < |old(items)|
      ensures ok ==> items == old(items)[..pos] + old(items)[pos + 1..]
      ensures !ok ==> items == old(items)
    {
      ok := 0 <= pos < |items|;
      if ok {
        items := items[..pos] + items[pos + 1..];
      }
    }

    method Copy() returns (c: JsonArray)
      ensures fresh(c) && c.items == items
    {
      c := new JsonArray(items);
    }
  }
}
