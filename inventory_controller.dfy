/** InventoryController: the inventory endpoints. Connections and transactions come
    from a database access object outside this model, so each operation takes the
    `Database` its queries run against. */
module InventoryControllers {
  import opened Json
  import opened Wrappers
  import opened Responses
  import opened Repositories
  import MutableJson

  // ---------------------------------------------------------------------------
  // The merge patch

  /** The keys a patch body sets to null. */
  function NullKeys(patch: map<string, Json>): (ks: set<string>)
    ensures forall k :: k in ks <==> k in patch && patch[k] == JNull
  {
    set k | k in patch && patch[k] == JNull
  }

  /** A map without some of its keys. */
  function Drop(m: map<string, Json>, ks: set<string>): (r: map<string, Json>)
    ensures forall k :: k in r <==> k in m && k !in ks
    ensures forall k :: k in r ==> r[k] == m[k]
  {
    map k | k in m && k !in ks :: m[k]
  }

  /** The stored object after `patch`: a key the body sets to a value takes that value,
      a key the body sets to null is gone, and every other key is as stored. */
  function MergePatch(stored: map<string, Json>, patch: map<string, Json>): (r: map<string, Json>)
    ensures forall k :: k in patch && patch[k] != JNull ==> k in r && r[k] == patch[k]
    ensures forall k :: k in patch && patch[k] == JNull ==> k !in r
    ensures forall k :: k !in patch ==> (k in r <==> k in stored) && (k in stored ==> r[k] == stored[k])
  {
    map k | k in stored.Keys + patch.Keys && !(k in patch && patch[k] == JNull) ::
      if k in patch then patch[k] else stored[k]
  }

  /** Applying the same patch twice is applying it once. */
  lemma MergePatchIdempotent(stored: map<string, Json>, patch: map<string, Json>)
    ensures MergePatch(MergePatch(stored, patch), patch) == MergePatch(stored, patch)
  {
    var once := MergePatch(stored, patch);
    var twice := MergePatch(once, patch);
    assert forall k :: k in twice <==> k in once;
  }

  /** The merge patch of section 2 of RFC 7386, as a reference: a patch object is merged
      into the target key by key, recursively; anything else replaces the target. */
  function Rfc7386MergePatch(target: Json, patch: Json): Json
    decreases patch
  {
    if patch.JObj? then
      var t := if target.JObj? then target.fields else map[];
      JObj(map k | k in t.Keys + patch.fields.Keys && !(k in patch.fields && patch.fields[k] == JNull) ::
        if k in patch.fields then Rfc7386MergePatch(Lookup(t, k), patch.fields[k]) else t[k])
    else patch
  }

  /** `patch` agrees with RFC 7386 on a body whose values are not objects. */
  lemma FlatPatchIsRfc7386(stored: map<string, Json>, patch: map<string, Json>)
    requires forall k :: k in patch ==> !patch[k].JObj?
    ensures JObj(MergePatch(stored, patch)) == Rfc7386MergePatch(JObj(stored), JObj(patch))
  {
    var r := Rfc7386MergePatch(JObj(stored), JObj(patch));
    var m := MergePatch(stored, patch);
    assert r.fields.Keys == m.Keys;
    forall k | k in m
      ensures r.fields[k] == m[k]
    {
      if k in patch {
        assert Rfc7386MergePatch(Lookup(stored, k), patch[k]) == patch[k];
      }
    }
  }

  /** `patch` is one level deep: a nested object in the body replaces the stored object
      whole, where RFC 7386 would merge into it and keep its other fields. */
  lemma NestedObjectReplaced(stored: map<string, Json>, patch: map<string, Json>, k: string)
    requires k in stored && k in patch && stored[k].JObj? && patch[k].JObj?
    ensures MergePatch(stored, patch)[k] == patch[k]
    ensures Rfc7386MergePatch(JObj(stored), JObj(patch)).fields[k] == Rfc7386MergePatch(stored[k], patch[k])
  {
  }

  lemma NestedObjectExample()
    ensures MergePatch(map["m" := JObj(map["a" := JInt(1)])], map["m" := JObj(map["b" := JInt(2)])]) ==
      map["m" := JObj(map["b" := JInt(2)])]
    ensures Rfc7386MergePatch(JObj(map["m" := JObj(map["a" := JInt(1)])]), JObj(map["m" := JObj(map["b" := JInt(2)])])) ==
      JObj(map["m" := JObj(map["a" := JInt(1), "b" := JInt(2)])])
  {
    var inner := Rfc7386MergePatch(JObj(map["a" := JInt(1)]), JObj(map["b" := JInt(2)]));
    assert inner.fields == map["a" := JInt(1), "b" := JInt(2)];
    var outer := Rfc7386MergePatch(JObj(map["m" := JObj(map["a" := JInt(1)])]), JObj(map["m" := JObj(map["b" := JInt(2)])]));
    assert outer.fields == map["m" := inner];
  }

  /** Merging the body in and then dropping its null keys is the merge patch. */
  lemma MergeThenDrop(stored: map<string, Json>, patch: map<string, Json>)
    ensures Drop(stored + patch, NullKeys(patch)) == MergePatch(stored, patch)
  {
  }

  /** `body.forEach { (key, value) -> if (value == null) obj.remove(key) }`. */
  method RemoveNullKeys(obj: MutableJson.JsonObject, body: map<string, Json>)
    modifies obj
    ensures obj.fields == Drop(old(obj.fields), NullKeys(body))
  {
    ghost var merged := obj.fields;
    var pending := body.Keys;
    while pending != {}
      invariant pending <= body.Keys
      invariant obj.fields == Drop(merged, NullKeys(body) - pending)
      decreases |pending|
    {
      var key :| key in pending;
      if body[key] == JNull {
        var _ := obj.Remove(key);
      }
      pending := pending - {key};
    }
    assert NullKeys(body) - pending == NullKeys(body);
  }

  // ---------------------------------------------------------------------------
  // The controller

  class InventoryController {
    const inventoryRepo: Repository

    constructor(inventoryRepo: Repository)
      ensures this.inventoryRepo == inventoryRepo
    {
      this.inventoryRepo := inventoryRepo;
    }

    /** `get`: one item by id, or every item when no id is given. */
    function Get(id: Option<string>, db: Database): (r: Result<Json, Failure>)
      requires id.Some? ==> Shaped(db(inventoryRepo.FindQuery(), [JStr(id.value)]))
      requires id.None? ==> Shaped(db(inventoryRepo.AllQuery(), []))
      ensures id.Some? ==> (r.Ok? <==> inventoryRepo.Find(id.value, db).Ok?)
      ensures id.Some? && r.Ok? ==> r.value == JObj(inventoryRepo.Find(id.value, db).value)
      ensures id.Some? && r.Err? ==> r.error == inventoryRepo.Find(id.value, db).error
      ensures id.None? ==> (r.Ok? <==> inventoryRepo.All(db).Ok?)
      ensures id.None? && r.Ok? ==> r.value == JArr(inventoryRepo.All(db).value)
      ensures id.None? && r.Err? ==> r.error == inventoryRepo.All(db).error
    {
      if id.Some? then
        match inventoryRepo.Find(id.value, db)
        case Ok(obj) => Ok(JObj(obj))
        case Err(e) => Err(e)
      else
        match inventoryRepo.All(db)
        case Ok(items) => Ok(JArr(items))
        case Err(e) => Err(e)
    }

    /** `post`: the body comes back unchanged; nothing is stored. */
    function Post(body: Json): (r: Json)
      ensures r == body
    {
      body
    }

    /** `patch`: the stored item is found, the body merged into it, every key the body
        sets to null removed, and the result written back; the reply is the updated row. */
    method Patch(id: string, body: map<string, Json>, db: Database) returns (r: Result<map<string, Json>, Failure>)
      requires Shaped(db(inventoryRepo.FindQuery(), [JStr(id)]))
      requires inventoryRepo.Find(id, db).Ok? ==>
        Shaped(db(inventoryRepo.UpdateQuery(), [JObj(MergePatch(inventoryRepo.Find(id, db).value, body)), JStr(id)]))
      ensures inventoryRepo.Find(id, db).Err? ==> r == inventoryRepo.Find(id, db)
      ensures inventoryRepo.Find(id, db).Ok? ==>
        r == inventoryRepo.Update(id, MergePatch(inventoryRepo.Find(id, db).value, body), db)
    {
      var found := inventoryRepo.Find(id, db);
      if found.Err? {
        return found;
      }
      var fromDb := new MutableJson.JsonObject(found.value);
      fromDb.MergeIn(body);
      RemoveNullKeys(fromDb, body);
      MergeThenDrop(found.value, body);
      r := inventoryRepo.Update(id, fromDb.fields, db);
    }

    /** `delete`: the item is deleted, or ModelNotFound when there is none; nothing is returned. */
    function Delete(id: string, db: Database): (r: Option<Failure>)
      requires Shaped(db(inventoryRepo.DeleteQuery(), [JStr(id)]))
      ensures r.None? <==> inventoryRepo.Delete(id, db).Ok?
      ensures r.Some? ==> r.value == inventoryRepo.Delete(id, db).error
    {
      match inventoryRepo.Delete(id, db)
      case Ok(_) => None
      case Err(e) => Some(e)
    }
  }
}
