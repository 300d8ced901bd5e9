/**
  ShippingMethodsService: the shipping-methods resource of the admin API.
  It normalizes input into the documents it stores, guards every lookup by
  identifier, and reshapes stored documents for output by exposing `_id` as
  a string `id`.
 */
module ShippingMethods {
  import opened JsValues
  import opened Parse
  import opened Collection

  const Name := "name"
  const Description := "description"
  const Position := "position"
  const Enabled := "enabled"
  const Price := "price"
  const Conditions := "conditions"
  /** The key under which output documents carry their identifier. */
  const IdField := "id"

  /** The fields a caller can set. */
  const KnownFields: set<string> := {Name, Description, Position, Enabled, Price}

  const InvalidIdentifier := "Invalid identifier"
  const RequiredFieldsMissing := "Required fields are missing"
  /** The reason the store rejects an insert whose `_id` is taken. */
  const DuplicateKey := "E11000 duplicate key error"
  /** The reason a property read on `undefined` or `null` throws. */
  const TypeError := "TypeError"

  /** `n || 0`: the value is 0 exactly when `n` is falsy, and `n` itself
      otherwise. */
  function OrZero(n: Value): (r: Value)
    ensures r == Num(0.0) <==> !Truthy(n)
    ensures r != Num(0.0) ==> r == n && Truthy(r)
  {
    Or(n, Num(0.0))
  }

  /** The stored value of a known field, given the input's value `v` for it;
      insert and update normalize alike. */
  function Normalize(h: Helpers, field: string, v: Value): (r: Value)
    ensures field == Position || field == Price ==>
      (r == Num(0.0) <==> !Truthy(h.getNumberIfPositive(v))) &&
      (r != Num(0.0) ==> r == h.getNumberIfPositive(v))
  {
    if field == Name || field == Description then h.getString(v)
    else if field == Position || field == Price then OrZero(h.getNumberIfPositive(v))
    else h.getBooleanIfValid(v, Bool(true))
  }

  /** The document an insert stores for the input `data`. */
  function InsertDocument(h: Helpers, data: Document): (doc: Document)
    ensures doc.Keys == KnownFields + {Conditions}
    ensures doc[Conditions] == Obj(map[])
    ensures forall k :: k in KnownFields ==> doc[k] == Normalize(h, k, Get(data, k))
  {
    map k | k in KnownFields + {Conditions} ::
      if k == Conditions then Obj(map[]) else Normalize(h, k, Get(data, k))
  }

  /** The fields an update writes for the input `data`. */
  function UpdatePatch(h: Helpers, data: Document): (patch: Document)
    ensures IdKey !in patch
    ensures forall k :: k in patch <==> k in KnownFields && Get(data, k) != Undefined
    ensures forall k :: k in patch ==> patch[k] == InsertDocument(h, data)[k]
  {
    map k | k in KnownFields && Get(data, k) != Undefined :: Normalize(h, k, Get(data, k))
  }

  /** `position` and `price` are 0 exactly when getNumberIfPositive gives a
      falsy value, and that value otherwise; an update writes the same value
      whenever it writes the field. */
  lemma AmountsFallBackToZero(h: Helpers, data: Document, k: string)
    requires k == Position || k == Price
    ensures InsertDocument(h, data)[k] == Num(0.0) <==> !Truthy(h.getNumberIfPositive(Get(data, k)))
    ensures InsertDocument(h, data)[k] != Num(0.0) ==> InsertDocument(h, data)[k] == h.getNumberIfPositive(Get(data, k))
    ensures k in UpdatePatch(h, data) ==> UpdatePatch(h, data)[k] == InsertDocument(h, data)[k]
  {
    assert InsertDocument(h, data)[k] == OrZero(h.getNumberIfPositive(Get(data, k)));
  }

  /** The insert document is built from the known fields alone: inputs that
      agree on them give the same document. */
  lemma InsertIgnoresUnknownKeys(h: Helpers, data1: Document, data2: Document)
    requires forall k :: k in KnownFields ==> Get(data1, k) == Get(data2, k)
    ensures InsertDocument(h, data1) == InsertDocument(h, data2)
  {
    var insert1, insert2 := InsertDocument(h, data1), InsertDocument(h, data2);
    assert insert1.Keys == insert2.Keys;
    forall k | k in insert1 ensures insert1[k] == insert2[k] {
      if k != Conditions {
        assert Get(data1, k) == Get(data2, k);
      }
    }
  }

  /** So is the update patch. */
  lemma UpdateIgnoresUnknownKeys(h: Helpers, data1: Document, data2: Document)
    requires forall k :: k in KnownFields ==> Get(data1, k) == Get(data2, k)
    ensures UpdatePatch(h, data1) == UpdatePatch(h, data2)
  {
    var patch1, patch2 := UpdatePatch(h, data1), UpdatePatch(h, data2);
    assert patch1.Keys == patch2.Keys;
  }

  /** An update that supplies every known field writes what an insert of the
      same input stores, except `conditions`. */
  lemma FullUpdateIsInsert(h: Helpers, data: Document)
    requires forall k :: k in KnownFields ==> Get(data, k) != Undefined
    ensures UpdatePatch(h, data) == InsertDocument(h, data) - {Conditions}
  {
    assert UpdatePatch(h, data).Keys == (InsertDocument(h, data) - {Conditions}).Keys;
  }

  /** One step of getDocumentForUpdate: `if (data.k !== undefined) method.k = v`. */
  function SetIfDefined(fields: Document, data: Document, k: string, v: Value): Document {
    if Get(data, k) != Undefined then fields[k := v] else fields
  }

  /** The known fields in the order getDocumentForUpdate examines them. */
  const UpdateOrder: seq<string> := [Name, Description, Position, Enabled, Price]

  /** The patch getDocumentForUpdate has built once it has examined the
      first `n` fields of `UpdateOrder`. */
  function PatchPrefix(h: Helpers, data: Document, n: nat): Document
    requires n <= |UpdateOrder|
  {
    if n == 0 then map[]
    else
      var k := UpdateOrder[n - 1];
      SetIfDefined(PatchPrefix(h, data, n - 1), data, k, Normalize(h, k, Get(data, k)))
  }

  /** After `n` fields, the patch holds, normalized, exactly those of them
      that `data` does not leave undefined. */
  lemma {:induction false} PatchPrefixFields(h: Helpers, data: Document, n: nat)
    requires n <= |UpdateOrder|
    ensures forall k :: k in PatchPrefix(h, data, n) <==> k in UpdateOrder[..n] && Get(data, k) != Undefined
    ensures forall k :: k in PatchPrefix(h, data, n) ==> PatchPrefix(h, data, n)[k] == Normalize(h, k, Get(data, k))
  {
    if n > 0 {
      PatchPrefixFields(h, data, n - 1);
      assert UpdateOrder[..n] == UpdateOrder[..n - 1] + [UpdateOrder[n - 1]];
    }
  }

  /** Examining field `n` of `UpdateOrder` is one conditional assignment. */
  lemma PatchPrefixStep(h: Helpers, data: Document, n: nat, k: string, v: Value)
    requires 0 < n <= |UpdateOrder| && k == UpdateOrder[n - 1]
    requires v == Normalize(h, k, Get(data, k))
    ensures PatchPrefix(h, data, n) == SetIfDefined(PatchPrefix(h, data, n - 1), data, k, v)
  {
  }

  /** Having examined every field, getDocumentForUpdate holds the update
      patch. */
  lemma PatchPrefixComplete(h: Helpers, data: Document)
    ensures PatchPrefix(h, data, |UpdateOrder|) == UpdatePatch(h, data)
  {
    PatchPrefixFields(h, data, |UpdateOrder|);
    assert UpdateOrder[..|UpdateOrder|] == UpdateOrder;
    assert forall k :: k in UpdateOrder <==> k in KnownFields;
    assert PatchPrefix(h, data, |UpdateOrder|).Keys == UpdatePatch(h, data).Keys;
  }

  /** A stored document whose `_id` can be turned into a string. */
  predicate HasId(doc: Document) {
    KeyOf(doc) != Undefined && KeyOf(doc) != Null
  }

  /** A document as the API returns it: `id` holds the string form of `_id`,
      `_id` is gone, and every other field is as stored. */
  function Renamed(h: Helpers, doc: Document): (out: Document)
    requires HasId(doc)
    ensures out.Keys == doc.Keys - {IdKey} + {IdField}
    ensures out[IdField] == Str(h.toString(KeyOf(doc)))
    ensures forall k :: k in doc && k != IdKey && k != IdField ==> out[k] == doc[k]
  {
    (doc - {IdKey})[IdField := Str(h.toString(doc[IdKey]))]
  }

  /** `items.map(item => renameDocumentFields(item))` over documents that
      all have an `_id`. */
  function RenameAll(h: Helpers, items: seq<Document>): (out: seq<Document>)
    requires forall d :: d in items ==> HasId(d)
    ensures |out| == |items|
    ensures forall i :: 0 <= i < |items| ==> out[i] == Renamed(h, items[i])
  {
    seq(|items|, i requires 0 <= i < |items| => Renamed(h, items[i]))
  }

  /** Reading an inserted document back exposes its new key as `id` next to
      the normalized fields. */
  lemma RenamedInsert(h: Helpers, data: Document, key: seq<bv8>)
    ensures Renamed(h, InsertDocument(h, data)[IdKey := ObjectId(key)])
         == InsertDocument(h, data)[IdField := Str(h.toString(ObjectId(key)))]
  {
    var doc := InsertDocument(h, data);
    var stored := doc[IdKey := ObjectId(key)];
    assert IdKey !in doc && IdField !in doc;
    assert stored - {IdKey} == doc;
  }

  /** The value `params.id` turns into through getObjectIDIfValid. */
  function RequestedId(h: Helpers, params: Document): Value {
    h.getObjectIDIfValid(Get(params, IdField))
  }

  /** The filter getMethods gives to `find`: on `_id` when the requested id
      is valid, empty otherwise. */
  function MethodsFilter(h: Helpers, params: Document): (f: Filter)
    ensures f.ById? <==> Truthy(RequestedId(h, params))
    ensures Coherent(h) ==> (f.ById? <==> h.isValid(Get(params, IdField)))
    ensures Coherent(h) && f.ById? ==> f.key == h.objectKey(Get(params, IdField))
  {
    if Truthy(RequestedId(h, params)) then ById(h.objectKey(RequestedId(h, params))) else All
  }

  /** A JavaScript object that the service mutates in place. */
  class JsObject {
    var props: Document

    constructor (props: Document)
      ensures this.props == props
    {
      this.props := props;
    }
  }

  class ShippingMethodsService {
    /** The helpers and driver primitives the service calls. */
    const parse: Helpers
    /** The documents of the `shippingMethods` collection, in stored order. */
    var collection: seq<Document>

    ghost predicate Valid()
      reads this
    {
      Stored(collection)
    }

    constructor (parse: Helpers, records: seq<Document>)
      requires Stored(records)
      ensures Valid() && this.parse == parse && collection == records
    {
      this.parse := parse;
      collection := records;
    }

    /** getMethods(params): every record when `params.id` is not a valid
        identifier, otherwise the record with that identifier, if any; each
        reshaped for output. */
    function GetMethods(params: Document): (methods: seq<Document>)
      reads this
      requires Valid()
      ensures !Truthy(RequestedId(parse, params)) ==>
        |methods| == |collection| &&
        forall i :: 0 <= i < |collection| ==> methods[i] == Renamed(parse, collection[i])
      ensures Truthy(RequestedId(parse, params)) ==>
        var key := parse.objectKey(RequestedId(parse, params));
        && (forall i :: 0 <= i < |collection| && KeyOf(collection[i]) == ObjectId(key) ==>
              methods == [Renamed(parse, collection[i])])
        && (!HasKey(collection, key) ==> methods == [])
    {
      FindAll(collection);
      FindByKey(collection, parse.objectKey(RequestedId(parse, params)));
      RenameAll(parse, Find(collection, MethodsFilter(parse, params)))
    }

    /** getSingleMethod(id): rejects an invalid identifier; otherwise the
        first record getMethods finds for it, or null. */
    function GetSingleMethod(id: Value): (r: Outcome<Value>)
      reads this
      requires Valid()
      ensures r.Rejected? <==> !parse.isValid(id)
      ensures r.Rejected? ==> r.reason == InvalidIdentifier
      ensures r.Resolved? ==> r.value == Null || (r.value.Obj? && IdField in r.value.props && IdKey !in r.value.props)
      ensures Coherent(parse) && parse.isValid(id) ==>
        && (forall i :: 0 <= i < |collection| && KeyOf(collection[i]) == ObjectId(parse.objectKey(id)) ==>
              r == Resolved(Obj(Renamed(parse, collection[i]))))
        && (!HasKey(collection, parse.objectKey(id)) ==> r == Resolved(Null))
    {
      if !parse.isValid(id) then Rejected(InvalidIdentifier)
      else
        var methods := GetMethods(map[IdField := id]);
        Resolved(if |methods| > 0 then Obj(methods[0]) else Null)
    }

    /** addMethod(data): stores the normalized document under the key the
        driver generates, then reads it back by the key's string form. */
    method AddMethod(data: Document, key: seq<bv8>) returns (r: Outcome<Value>)
      requires Valid()
      modifies this
      ensures Valid()
      ensures HasKey(old(collection), key) ==> r == Rejected(DuplicateKey) && collection == old(collection)
      ensures !HasKey(old(collection), key) ==>
        && collection == old(collection) + [InsertDocument(parse, data)[IdKey := ObjectId(key)]]
        && r == GetSingleMethod(Str(parse.toString(ObjectId(key))))
      ensures !HasKey(old(collection), key) && Coherent(parse) ==>
        r == Resolved(Obj(InsertDocument(parse, data)[IdField := Str(parse.toString(ObjectId(key)))]))
    {
      var doc := GetDocumentForInsert(data);
      if HasKey(collection, key) {
        r := Rejected(DuplicateKey);
        return;
      }
      var stored := doc[IdKey := ObjectId(key)];
      AppendFreshKey(collection, stored, key);
      collection := collection + [stored];
      var idString := Str(parse.toString(ObjectId(key)));
      r := GetSingleMethod(idString);
      if Coherent(parse) {
        RenamedInsert(parse, data, key);
        assert parse.isValid(idString) && parse.objectKey(idString) == key;
        assert KeyOf(collection[|collection| - 1]) == ObjectId(key);
      }
    }

    /** updateMethod(id, data): rejects an invalid identifier before touching
        the store; otherwise `$set`s the update document on the record with
        that identifier and reads it back. */
    method UpdateMethod(id: Value, data: Document) returns (r: Outcome<Value>)
      requires Valid()
      modifies this
      ensures Valid()
      ensures !parse.isValid(id) ==> r == Rejected(InvalidIdentifier) && collection == old(collection)
      ensures parse.isValid(id) ==>
        var written := if data == map[] then map[] else UpdatePatch(parse, data);
        && |collection| == |old(collection)|
        && (forall i :: 0 <= i < |collection| ==>
              collection[i] == if KeyOf(old(collection)[i]) == ObjectId(parse.objectKey(id))
                               then old(collection)[i] + written else old(collection)[i])
      ensures parse.isValid(id) ==>
        forall i, k :: 0 <= i < |collection| && k in old(collection)[i] && (k !in KnownFields || Get(data, k) == Undefined) ==>
          k in collection[i] && collection[i][k] == old(collection)[i][k]
      ensures parse.isValid(id) ==> r == GetSingleMethod(id)
    {
      if !parse.isValid(id) {
        r := Rejected(InvalidIdentifier);
        return;
      }
      var key := parse.objectKey(id);
      var update := GetDocumentForUpdate(id, data);
      ghost var before := collection;
      UpdateByKey(collection, key, SetFields(update));
      UpdateKeepsStored(collection, key, SetFields(update));
      collection := UpdateOne(collection, ById(key), SetFields(update));
      forall i, k | 0 <= i < |collection| && k in before[i] && (k !in KnownFields || Get(data, k) == Undefined)
        ensures k in collection[i] && collection[i][k] == before[i][k]
      {
        assert k !in SetFields(update);
      }
      r := GetSingleMethod(id);
    }

    /** deleteMethod(id): rejects an invalid identifier before touching the
        store; otherwise removes the record with that identifier and resolves
        with the number of records removed. */
    method DeleteMethod(id: Value) returns (r: Outcome<nat>)
      requires Valid()
      modifies this
      ensures Valid()
      ensures !parse.isValid(id) ==> r == Rejected(InvalidIdentifier) && collection == old(collection)
      ensures parse.isValid(id) && !HasKey(old(collection), parse.objectKey(id)) ==>
        r == Resolved(0) && collection == old(collection)
      ensures parse.isValid(id) ==>
        forall i :: 0 <= i < |old(collection)| && KeyOf(old(collection)[i]) == ObjectId(parse.objectKey(id)) ==>
          r == Resolved(1) && collection == old(collection)[..i] + old(collection)[i + 1..]
    {
      if !parse.isValid(id) {
        r := Rejected(InvalidIdentifier);
        return;
      }
      var key := parse.objectKey(id);
      DeleteByKey(collection, key);
      DeleteKeepsStored(collection, key);
      var before := |collection|;
      collection := DeleteOne(collection, ById(key));
      r := Resolved(before - |collection|);
    }

    /** getDocumentForInsert(data): every known field normalized, defaults
        applied, and empty `conditions`. */
    method GetDocumentForInsert(data: Document) returns (doc: Document)
      ensures doc == InsertDocument(parse, data)
    {
      doc := map[Conditions := Obj(map[])];
      doc := doc[Name := parse.getString(Get(data, Name))];
      doc := doc[Description := parse.getString(Get(data, Description))];
      doc := doc[Position := OrZero(parse.getNumberIfPositive(Get(data, Position)))];
      doc := doc[Enabled := parse.getBooleanIfValid(Get(data, Enabled), Bool(true))];
      doc := doc[Price := OrZero(parse.getNumberIfPositive(Get(data, Price)))];
    }

    /** getDocumentForUpdate(id, data): an Error value, returned rather than
        thrown, when `data` has no keys; otherwise the normalized fields that
        `data` does not leave undefined. */
    method GetDocumentForUpdate(id: Value, data: Document) returns (update: Value)
      ensures data == map[] ==> update == ErrorObj(RequiredFieldsMissing)
      ensures data != map[] ==> update == Obj(UpdatePatch(parse, data))
    {
      if |data| == 0 {
        return ErrorObj(RequiredFieldsMissing);
      }
      var fields: Document := map[];
      PatchPrefixStep(parse, data, 1, Name, parse.getString(Get(data, Name)));
      assert fields == PatchPrefix(parse, data, 0);
      if Get(data, Name) != Undefined {
        fields := fields[Name := parse.getString(Get(data, Name))];
      }
      PatchPrefixStep(parse, data, 2, Description, parse.getString(Get(data, Description)));
      assert fields == PatchPrefix(parse, data, 1);
      if Get(data, Description) != Undefined {
        fields := fields[Description := parse.getString(Get(data, Description))];
      }
      PatchPrefixStep(parse, data, 3, Position, OrZero(parse.getNumberIfPositive(Get(data, Position))));
      assert fields == PatchPrefix(parse, data, 2);
      if Get(data, Position) != Undefined {
        fields := fields[Position := OrZero(parse.getNumberIfPositive(Get(data, Position)))];
      }
      PatchPrefixStep(parse, data, 4, Enabled, parse.getBooleanIfValid(Get(data, Enabled), Bool(true)));
      assert fields == PatchPrefix(parse, data, 3);
      if Get(data, Enabled) != Undefined {
        fields := fields[Enabled := parse.getBooleanIfValid(Get(data, Enabled), Bool(true))];
      }
      PatchPrefixStep(parse, data, 5, Price, OrZero(parse.getNumberIfPositive(Get(data, Price))));
      assert fields == PatchPrefix(parse, data, 4);
      if Get(data, Price) != Undefined {
        fields := fields[Price := OrZero(parse.getNumberIfPositive(Get(data, Price)))];
      }
      assert fields == PatchPrefix(parse, data, 5);
      PatchPrefixComplete(parse, data);
      update := Obj(fields);
    }

    /** renameDocumentFields(item): a falsy item is returned as it is; an
        object gets `id` set to the string form of its `_id`, and `_id`
        deleted, in place. Reading `_id.toString()` throws when `_id` is
        missing, undefined or null, before anything is changed. */
    method RenameDocumentFields(item: JsObject?) returns (r: Outcome<JsObject?>)
      modifies item
      ensures item == null ==> r == Resolved(null)
      ensures item != null && HasId(old(item.props)) ==>
        r == Resolved(item) && item.props == Renamed(parse, old(item.props))
      ensures item != null && !HasId(old(item.props)) ==>
        r == Rejected(TypeError) && item.props == old(item.props)
    {
      if item != null {
        if !HasId(item.props) {
          return Rejected(TypeError);
        }
        item.props := item.props[IdField := Str(parse.toString(item.props[IdKey]))];
        item.props := item.props - {IdKey};
      }
      r := Resolved(item);
    }
  }
}
