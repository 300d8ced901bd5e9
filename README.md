# Shipping methods service — Dafny model

This project models `ShippingMethodsService`, the shipping-methods resource
of the Cezerin admin API. The service lists and fetches shipping methods,
inserts, partially updates and deletes them in the `shippingMethods`
collection, and reshapes stored documents for output.

What the model covers:

- **Insert builder** (`getDocumentForInsert`): builds the whole document.
  All five known fields are set, the defaults are applied, and `conditions`
  is empty.
- **Update builder** (`getDocumentForUpdate`): five conditional assignments
  build a partial patch. An input with no keys yields an `Error` value, which
  is returned rather than thrown.
- **Output reshaping** (`renameDocumentFields`): moves `_id` to a string
  `id`, in place.
- **Identifier guards** of `getSingleMethod`, `updateMethod` and
  `deleteMethod`: an invalid id is rejected with `'Invalid identifier'` and
  the collection is left as it was.
- **Query logic** of `getMethods` and `getSingleMethod`: when the `_id`
  filter applies, and the first-or-null selection.

Layout:

- `js_values.dfy` (module `JsValues`): the JavaScript values the service
  handles, truthiness, `||`, property reads, and settled promises
  (`Outcome`).
- `parse_helpers.dfy` (module `Parse`): the `parse.*` helpers and the
  driver's `ObjectID` primitives. Each one is a function-valued field of
  `Helpers`, so it stays uninterpreted. `Coherent` states what the lookups
  by identifier rely on: getObjectIDIfValid agrees with `ObjectID.isValid`,
  and an ObjectID's string form is a valid identifier for that same ObjectID.
- `collection.dfy` (module `Collection`): the store operations the service
  issues (`find`, `insertMany`, `updateOne` with `$set`, `deleteOne`). They
  work over a sequence of documents and follow MongoDB's semantics, which
  are taken here as assumptions. MongoDB only makes `_id` unique. The model
  also assumes that every `_id` is an ObjectID, as it is for every record
  this service inserts (`Stored`; see "## Left out").
- `shipping_methods.dfy` (module `ShippingMethods`): the service. It is a
  class whose `collection` field the insert, update and delete methods
  reassign. The two document builders are methods that build their result
  step by step. `renameDocumentFields` is a method that mutates a `JsObject`.

Two consequences of the code that the model keeps as they are:

- `getDocumentForUpdate` (shipping_methods.js:83-85) returns an `Error`
  value for an input with no keys. It does not throw. `updateMethod`
  (:42-46) does not check what it gets back and passes it on as the `$set`
  argument, so `updateMethod` itself does not reject an empty input.
  Whether the store then accepts the resulting empty `$set` depends on the
  MongoDB server (see "## Left out").
- Nothing guarantees that `price` and `position` are non-negative. They are
  whatever `getNumberIfPositive` returns when that is truthy, and 0
  otherwise.

## Model

| member | source | states |
|---|---|---|
| `ShippingMethods.OrZero` | src/api/server/services/orders/shipping_methods.js:75 | `n \|\| 0` is 0 exactly when `n` is falsy; otherwise it is `n` itself, which is truthy |
| `ShippingMethods.Normalize` | src/api/server/services/orders/shipping_methods.js:73-77 | the normalization insert and update share (lines 73-77 and 90-106): `position` and `price` are 0 exactly when getNumberIfPositive gives a falsy value, and that value otherwise |
| `ShippingMethods.InsertDocument` | src/api/server/services/orders/shipping_methods.js:57-79 | the insert document has exactly the keys name, description, position, enabled, price and conditions, whatever keys the input has; `conditions` is an empty object; each known field is the normalized input value |
| `ShippingMethods.AmountsFallBackToZero` | src/api/server/services/orders/shipping_methods.js:75-77 | `position` and `price` are 0 exactly when getNumberIfPositive yields a falsy value, and that value otherwise; an update that writes the field writes the same value |
| `ShippingMethods.InsertIgnoresUnknownKeys` | src/api/server/services/orders/shipping_methods.js:73-77 | two inputs that agree on the five known fields give the same insert document, so unknown keys are never copied |
| `ShippingMethods.UpdatePatch` | src/api/server/services/orders/shipping_methods.js:87-109 | the patch holds a field if and only if it is known and not `undefined` in the input; its value is the one insert would store (enabled through getBooleanIfValid with default `true`); the patch never touches `_id` |
| `ShippingMethods.UpdateIgnoresUnknownKeys` | src/api/server/services/orders/shipping_methods.js:89-107 | two inputs that agree on the known fields give the same patch |
| `ShippingMethods.FullUpdateIsInsert` | src/api/server/services/orders/shipping_methods.js:89-107 | an update input that defines every known field writes exactly the insert document minus `conditions` |
| `ShippingMethods.Renamed` | src/api/server/services/orders/shipping_methods.js:112-119 | the output keys are the stored keys without `_id` and with `id`; `id` is the string form of the old `_id`; every other key keeps its value |
| `ShippingMethods.RenameAll` | src/api/server/services/orders/shipping_methods.js:18 | `items.map(renameDocumentFields)` gives one reshaped document per item, in order |
| `ShippingMethods.RenamedInsert` | src/api/server/services/orders/shipping_methods.js:34 | an inserted document read back carries the string form of its new key as `id` next to the normalized fields, and no `_id` |
| `ShippingMethods.MethodsFilter` | src/api/server/services/orders/shipping_methods.js:12-16 | the filter is on `_id` exactly when getObjectIDIfValid(params.id) is truthy, and empty otherwise; under `Coherent`, that is exactly when `params.id` is a valid identifier, and the filter key is the key of `params.id` |
| `ShippingMethods.ShippingMethodsService.constructor` | src/api/server/services/orders/shipping_methods.js:8-9 | the service starts over a valid collection with the given helpers |
| `ShippingMethods.ShippingMethodsService.GetMethods` | src/api/server/services/orders/shipping_methods.js:11-19 | when getObjectIDIfValid(params.id) is falsy, every record in stored order, each reshaped; otherwise the one record with that ObjectID reshaped, or the empty list |
| `ShippingMethods.ShippingMethodsService.GetSingleMethod` | src/api/server/services/orders/shipping_methods.js:21-30 | rejects with `'Invalid identifier'` exactly when `ObjectID.isValid(id)` fails; otherwise resolves with null or an object that has `id` and no `_id`; under `Coherent`, the reshaped record with that key, or null when there is none |
| `ShippingMethods.ShippingMethodsService.AddMethod` | src/api/server/services/orders/shipping_methods.js:32-35 | appends the insert document under the new key and resolves with what getSingleMethod reads back by the key's string form; under `Coherent` that is the insert document with `id`; a taken key is rejected and changes nothing |
| `ShippingMethods.ShippingMethodsService.UpdateMethod` | src/api/server/services/orders/shipping_methods.js:37-47 | an invalid id is rejected with `'Invalid identifier'` and the collection is unchanged; otherwise only the record with that key changes, by merging the patch (nothing for an empty input); every field the input does not supply keeps its value; the result is getSingleMethod(id) |
| `ShippingMethods.ShippingMethodsService.DeleteMethod` | src/api/server/services/orders/shipping_methods.js:49-55 | an invalid id is rejected with `'Invalid identifier'` and the collection is unchanged; otherwise the record with that key is removed and the count is 1; with no such record the count is 0 and nothing changes |
| `ShippingMethods.ShippingMethodsService.GetDocumentForInsert` | src/api/server/services/orders/shipping_methods.js:57-80 | the document built field by field is the insert document |
| `ShippingMethods.ShippingMethodsService.GetDocumentForUpdate` | src/api/server/services/orders/shipping_methods.js:82-110 | an input with no keys gives the `Error` value 'Required fields are missing'; any other input gives the update patch, so an input whose keys are all `undefined` gives an empty patch |
| `ShippingMethods.ShippingMethodsService.RenameDocumentFields` | src/api/server/services/orders/shipping_methods.js:112-119 | null is returned unchanged; an object with an `_id` is reshaped in place and returned; reading `_id.toString()` throws a TypeError when `_id` is missing, undefined or null, and the object is left untouched |
| `Collection.Find` | src/api/server/services/orders/shipping_methods.js:18 | `find(filter)` returns exactly the stored documents that match the filter |
| `Collection.FindAll` | src/api/server/services/orders/shipping_methods.js:12-18 | the empty filter returns the whole collection in stored order |
| `Collection.FindByKey` | src/api/server/services/orders/shipping_methods.js:13-18 | with unique keys, the `_id` filter returns the one document with that key, or nothing |
| `Collection.SetFields` | src/api/server/services/orders/shipping_methods.js:46 | `{$set: method}` writes the object's own fields; when `method` is the `Error` value it writes nothing |
| `Collection.UpdateOne` | src/api/server/services/orders/shipping_methods.js:44-46 | `updateOne` keeps the number of documents |
| `Collection.UpdateByKey` | src/api/server/services/orders/shipping_methods.js:44-46 | with unique keys, `updateOne` on `_id` merges the patch into exactly the document with that key |
| `Collection.UpdateKeepsStored` | src/api/server/services/orders/shipping_methods.js:44-46 | a patch without `_id` keeps every key an ObjectID and keeps the keys unique |
| `Collection.DeleteOne` | src/api/server/services/orders/shipping_methods.js:54 | `deleteOne` removes at most one document |
| `Collection.DeleteByKey` | src/api/server/services/orders/shipping_methods.js:54 | with unique keys, `deleteOne` on `_id` removes exactly the document with that key, or nothing when no document has it |
| `Collection.DeleteKeepsStored` | src/api/server/services/orders/shipping_methods.js:54 | deleting by key keeps the keys unique ObjectIDs |
| `Collection.AppendFreshKey` | src/api/server/services/orders/shipping_methods.js:34 | inserting under a key not yet taken keeps the keys unique, and the new document holds that key |

## Left out

- MongoDB access (`mongo.db.collection(...)` and the driver) is not modelled as I/O. The collection is a sequence of documents in stored order. `find`, `insertMany`, `updateOne` with `$set`, and `deleteOne` follow the semantics assumed in `Collection`. Connection failures and other store errors are not modelled, except the duplicate-key rejection of an insert.
- Collection.Stored: every stored record is assumed to have an ObjectID `_id`, as every record this service inserts does. MongoDB also allows an `_id` of any other type, including one record whose `_id` is `null`. For such a record, `renameDocumentFields` (shipping_methods.js:114) throws and `getMethods` (:18) rejects. The model does not capture that rejection.
- `$set` given an `Error` value is modelled as writing no field, because an `Error` has no enumerable own property. MongoDB servers before 5.0 reject an empty `$set`, so on them `updateMethod` with an empty input rejects. The model does not capture that rejection.
- The key the driver generates on insert (`res.ops[0]._id`) is a parameter of `AddMethod`, because it comes from the driver's clock and counter.
- The internals of `parse.getString`, `parse.getNumberIfPositive`, `parse.getBooleanIfValid`, `parse.getObjectIDIfValid`, `ObjectID.isValid`, `new ObjectID(...)` and `toString()` are not shown. They are uninterpreted functions, and the lib/parse module is not part of this model.
- ShippingMethods.ShippingMethodsService.GetSingleMethod: which record it returns is stated only under the `Coherent` assumption about the unseen helpers. Without that assumption the model states only the guard and the shape of the result.
- ShippingMethods.ShippingMethodsService.AddMethod: the read-back result is stated only under `Coherent`, for the same reason.
- Promises and asynchrony are not modelled. Each operation's result is a settled `Outcome`, either resolved or rejected.
- Concurrent requests and last-writer-wins interleavings are not modelled.
- Numbers are reals with NaN kept apart. Floating-point rounding, infinities and the sign of zero are not modelled, and no bound on `price` or `position` is claimed beyond the `|| 0` fallback.
- JavaScript property order is not modelled: objects are maps of their own enumerable properties.
- The `data` argument is modelled as a plain object's own properties. Inherited properties are not modelled, and neither is the TypeError that `Object.keys` throws on a non-object argument.
- `renameDocumentFields` is modelled for objects and for null. Other falsy primitives (`0`, `''`, `false`, `undefined`) would be returned unchanged, and truthy primitives would throw. These are not modelled because `find` only yields objects.
- `deleteMethod` resolves with the driver's raw acknowledgement. The model keeps only its deleted count.
- `getErrorMessage` only wraps `toString()`, and the singleton export at line 126 is module plumbing. Neither is modelled.
