/**
  The `shippingMethods` collection as the service uses it through the MongoDB
  driver: `find(filter)`, `insertMany([doc])`, `updateOne(filter, {$set})` and
  `deleteOne(filter)` over the stored documents in their natural order. These
  are the store's semantics, not the service's; the model assumes the two
  filters the service issues (`{}` and `{_id: …}`) and field-wise `$set`
  merging.
 */
module Collection {
  import opened JsValues

  const IdKey := "_id"

  /** The filters the service builds: `{}` and `{_id: ObjectID(key)}`. */
  datatype Filter = All | ById(key: seq<bv8>)

  /** The value of a document's `_id`, undefined when it has none. */
  function KeyOf(doc: Document): Value {
    Get(doc, IdKey)
  }

  predicate Matches(doc: Document, filter: Filter) {
    match filter
    case All => true
    case ById(key) => KeyOf(doc) == ObjectId(key)
  }

  /** Some stored document has the primary key `key`. */
  predicate HasKey(docs: seq<Document>, key: seq<bv8>) {
    exists i :: 0 <= i < |docs| && KeyOf(docs[i]) == ObjectId(key)
  }

  /** The records this model admits: each has an ObjectID `_id`, as every
      record this service inserts does, and no two share one. MongoDB itself
      only makes `_id` unique; it allows an `_id` of any type, `null`
      included, which this model leaves out. */
  predicate Stored(docs: seq<Document>) {
    && (forall i :: 0 <= i < |docs| ==> KeyOf(docs[i]).ObjectId?)
    && (forall i, j :: 0 <= i < j < |docs| ==> KeyOf(docs[i]) != KeyOf(docs[j]))
  }

  /** `find(filter).toArray()`: the matching documents, in stored order. */
  function Find(docs: seq<Document>, filter: Filter): (found: seq<Document>)
    ensures |found| <= |docs|
    ensures forall d :: d in found <==> d in docs && Matches(d, filter)
  {
    if docs == [] then []
    else (if Matches(docs[0], filter) then [docs[0]] else []) + Find(docs[1..], filter)
  }

  /** `updateOne(filter, {$set: patch})`: the first matching document gets
      the patch's fields, every other document is left as it was. */
  function UpdateOne(docs: seq<Document>, filter: Filter, patch: Document): (updated: seq<Document>)
    ensures |updated| == |docs|
  {
    if docs == [] then []
    else if Matches(docs[0], filter) then [docs[0] + patch] + docs[1..]
    else [docs[0]] + UpdateOne(docs[1..], filter, patch)
  }

  /** `deleteOne(filter)`: the first matching document is removed. */
  function DeleteOne(docs: seq<Document>, filter: Filter): (rest: seq<Document>)
    ensures |rest| == |docs| || |rest| == |docs| - 1
  {
    if docs == [] then []
    else if Matches(docs[0], filter) then docs[1..]
    else [docs[0]] + DeleteOne(docs[1..], filter)
  }

  /** What `$set` writes for the update value it is given: an Error
      object has no enumerable own property, so it writes nothing. */
  function SetFields(update: Value): (fields: Document)
    ensures update.ErrorObj? ==> fields == map[]
    ensures update.Obj? ==> fields == update.props
  {
    if update.Obj? then update.props else map[]
  }

  /** An empty filter selects the whole collection. */
  lemma {:induction false} FindAll(docs: seq<Document>)
    ensures Find(docs, All) == docs
  {
    if docs != [] {
      FindAll(docs[1..]);
      assert docs == [docs[0]] + docs[1..];
    }
  }

  /** Dropping the first document keeps the collection valid. */
  lemma StoredTail(docs: seq<Document>)
    requires Stored(docs) && docs != []
    ensures Stored(docs[1..])
  {
    var tail := docs[1..];
    assert forall i :: 0 <= i < |tail| ==> tail[i] == docs[i + 1];
  }

  /** With unique keys, no document after one holding `key` holds it too. */
  lemma KeyNotInTail(docs: seq<Document>, key: seq<bv8>)
    requires Stored(docs) && docs != [] && KeyOf(docs[0]) == ObjectId(key)
    ensures !HasKey(docs[1..], key)
  {
    var tail := docs[1..];
    forall j | 0 <= j < |tail| ensures KeyOf(tail[j]) != ObjectId(key) {
      assert tail[j] == docs[j + 1];
    }
  }

  /** A key missing from a collection is missing from its tail. */
  lemma NoKeyNoKeyInTail(docs: seq<Document>, key: seq<bv8>)
    requires docs != [] && !HasKey(docs, key)
    ensures !HasKey(docs[1..], key)
  {
    var tail := docs[1..];
    forall j | 0 <= j < |tail| ensures KeyOf(tail[j]) != ObjectId(key) {
      assert tail[j] == docs[j + 1];
    }
  }

  /** A filter on `_id` selects exactly the document with that key, or none. */
  lemma {:induction false} FindByKey(docs: seq<Document>, key: seq<bv8>)
    requires Stored(docs)
    ensures forall i :: 0 <= i < |docs| && KeyOf(docs[i]) == ObjectId(key) ==> Find(docs, ById(key)) == [docs[i]]
    ensures !HasKey(docs, key) ==> Find(docs, ById(key)) == []
  {
    if docs != [] {
      var tail := docs[1..];
      StoredTail(docs);
      FindByKey(tail, key);
      if KeyOf(docs[0]) == ObjectId(key) {
        KeyNotInTail(docs, key);
        forall i | 0 < i < |docs| ensures KeyOf(docs[i]) != ObjectId(key) {
        }
      } else {
        forall i | 0 <= i < |docs| && KeyOf(docs[i]) == ObjectId(key)
          ensures Find(docs, ById(key)) == [docs[i]]
        {
          assert tail[i - 1] == docs[i];
        }
        if !HasKey(docs, key) {
          NoKeyNoKeyInTail(docs, key);
        }
      }
    }
  }

  /** With unique keys, `updateOne` on `_id` patches exactly the document
      with that key. */
  lemma {:induction false} UpdateByKey(docs: seq<Document>, key: seq<bv8>, patch: Document)
    requires Stored(docs)
    ensures forall i :: 0 <= i < |docs| ==>
      UpdateOne(docs, ById(key), patch)[i] == if KeyOf(docs[i]) == ObjectId(key) then docs[i] + patch else docs[i]
  {
    if docs != [] {
      var tail := docs[1..];
      var r := UpdateOne(docs, ById(key), patch);
      if KeyOf(docs[0]) == ObjectId(key) {
        forall i | 0 < i < |docs| ensures KeyOf(docs[i]) != ObjectId(key) {
        }
      } else {
        StoredTail(docs);
        UpdateByKey(tail, key, patch);
        assert forall i :: 0 < i < |docs| ==> r[i] == UpdateOne(tail, ById(key), patch)[i - 1] && docs[i] == tail[i - 1];
      }
    }
  }

  /** A patch that leaves `_id` alone keeps the collection valid. */
  lemma UpdateKeepsStored(docs: seq<Document>, key: seq<bv8>, patch: Document)
    requires Stored(docs) && IdKey !in patch
    ensures Stored(UpdateOne(docs, ById(key), patch))
  {
    UpdateByKey(docs, key, patch);
    var r := UpdateOne(docs, ById(key), patch);
    assert forall i :: 0 <= i < |docs| ==> KeyOf(r[i]) == KeyOf(docs[i]);
  }

  /** Removing one document keeps the collection valid. */
  lemma StoredRemoveAt(docs: seq<Document>, i: nat)
    requires Stored(docs) && i < |docs|
    ensures Stored(docs[..i] + docs[i + 1..])
  {
    var r := docs[..i] + docs[i + 1..];
    assert forall j :: 0 <= j < |r| ==> r[j] == docs[if j < i then j else j + 1];
  }

  /** With unique keys, `deleteOne` on `_id` removes exactly the document
      with that key, if there is one. */
  lemma {:induction false} DeleteByKey(docs: seq<Document>, key: seq<bv8>)
    requires Stored(docs)
    ensures forall i :: 0 <= i < |docs| && KeyOf(docs[i]) == ObjectId(key) ==>
      DeleteOne(docs, ById(key)) == docs[..i] + docs[i + 1..]
    ensures !HasKey(docs, key) ==> DeleteOne(docs, ById(key)) == docs
  {
    if docs != [] {
      var tail := docs[1..];
      var r := DeleteOne(docs, ById(key));
      if KeyOf(docs[0]) == ObjectId(key) {
        forall i | 0 < i < |docs| ensures KeyOf(docs[i]) != ObjectId(key) {
        }
        assert docs[..0] + docs[1..] == docs[1..];
      } else {
        StoredTail(docs);
        DeleteByKey(tail, key);
        forall i | 0 <= i < |docs| && KeyOf(docs[i]) == ObjectId(key)
          ensures r == docs[..i] + docs[i + 1..]
        {
          assert tail[i - 1] == docs[i];
          assert docs[..i] + docs[i + 1..] == [docs[0]] + (tail[..i - 1] + tail[i..]);
        }
        if !HasKey(docs, key) {
          NoKeyNoKeyInTail(docs, key);
          assert [docs[0]] + tail == docs;
        }
      }
    }
  }

  /** Deleting by key keeps the collection valid. */
  lemma DeleteKeepsStored(docs: seq<Document>, key: seq<bv8>)
    requires Stored(docs)
    ensures Stored(DeleteOne(docs, ById(key)))
  {
    DeleteByKey(docs, key);
    if HasKey(docs, key) {
      var i :| 0 <= i < |docs| && KeyOf(docs[i]) == ObjectId(key);
      StoredRemoveAt(docs, i);
    }
  }

  /** Appending a document under a key not yet taken keeps the collection
      valid, and the appended document is the one with that key. */
  lemma AppendFreshKey(docs: seq<Document>, doc: Document, key: seq<bv8>)
    requires Stored(docs) && !HasKey(docs, key)
    requires KeyOf(doc) == ObjectId(key)
    ensures Stored(docs + [doc])
    ensures KeyOf((docs + [doc])[|docs|]) == ObjectId(key)
  {
    var r := docs + [doc];
    assert forall i :: 0 <= i < |docs| ==> r[i] == docs[i];
  }
}
