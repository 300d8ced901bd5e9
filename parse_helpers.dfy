/**
  The collaborators the service calls whose code is not part of this model:
  the `parse` helpers of the server's lib directory and the MongoDB driver's
  ObjectID primitives. Each one is an arbitrary function here, so every
  property proved about the service holds whatever they do, unless it is
  stated under the `Coherent` assumption below.
 */
module Parse {
  import opened JsValues

  datatype Helpers = Helpers(
    /** parse.getString */
    getString: Value -> Value,
    /** parse.getNumberIfPositive */
    getNumberIfPositive: Value -> Value,
    /** parse.getBooleanIfValid(value, default) */
    getBooleanIfValid: (Value, Value) -> Value,
    /** parse.getObjectIDIfValid */
    getObjectIDIfValid: Value -> Value,
    /** ObjectID.isValid */
    isValid: Value -> bool,
    /** the key of `new ObjectID(value)` */
    objectKey: Value -> seq<bv8>,
    /** `value.toString()` */
    toString: Value -> string)

  /** What the service silently relies on for its lookups by identifier:
      getObjectIDIfValid yields a truthy value exactly for the values
      ObjectID.isValid accepts, and one that denotes the same ObjectID; and
      the string form of an ObjectID is a valid identifier for that same
      ObjectID. */
  ghost predicate Coherent(h: Helpers) {
    && (forall v :: Truthy(h.getObjectIDIfValid(v)) <==> h.isValid(v))
    && (forall v :: h.isValid(v) ==> h.objectKey(h.getObjectIDIfValid(v)) == h.objectKey(v))
    && (forall k :: h.isValid(Str(h.toString(ObjectId(k)))) && h.objectKey(Str(h.toString(ObjectId(k)))) == k)
  }
}
