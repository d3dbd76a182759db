/** The record a caller hands to `Set`, its validation tags and the part of
    it that is serialised. */
module Objects {
  import opened Bytes

  /** A Go `interface{}` property value. Nothing in the core looks inside one
      (only the external serialiser does), so it is an uninterpreted token. */
  datatype Dynamic = Dynamic(token: nat)

  /** `Object`: a nil and an empty `Properties` map both have length 0, so
      both are the empty map here. */
  datatype Object = Object(collection: GoString, id: GoString, properties: map<GoString, Dynamic>)

  /** The fields a validation error can name. */
  datatype Field = CollectionField | IdField | PropertiesField

  /** The fields whose validation tag fails: `nonzero` on `Collection` and
      `ID` (the empty string is the zero string), `min=1` on `Properties`
      (the map's length). */
  function Validate(o: Object): (errs: set<Field>)
  {
    (if o.collection == [] then {CollectionField} else {})
    + (if o.id == [] then {IdField} else {})
    + (if |o.properties| < 1 then {PropertiesField} else {})
  }

  predicate IsValid(o: Object) {
    Validate(o) == {}
  }

  /** An object is accepted exactly when all three rules hold. */
  lemma ValidIff(o: Object)
    ensures IsValid(o) <==> o.collection != [] && o.id != [] && |o.properties| >= 1
    ensures CollectionField in Validate(o) <==> o.collection == []
    ensures IdField in Validate(o) <==> o.id == []
    ensures PropertiesField in Validate(o) <==> o.properties == map[]
  {
    if o.properties != map[] {
      var k :| k in o.properties;
      assert k in o.properties.Keys;
    }
  }

  /** The zero `Object{}` fails all three rules. */
  lemma ZeroObjectInvalid()
    ensures Validate(Object([], [], map[])) == {CollectionField, IdField, PropertiesField}
  {
  }

  /** The JSON-visible part of an object: `id` and `properties`. The
      collection is tagged `json:"-"` and travels with the buffer instead. */
  datatype Record = Record(id: GoString, properties: map<GoString, Dynamic>)

  function Encode(o: Object): Record
  {
    Record(o.id, o.properties)
  }

  /** Two objects that differ only in their collection serialise the same. */
  lemma EncodeIgnoresCollection(o: Object, c: GoString)
    ensures Encode(o.(collection := c)) == Encode(o)
  {
  }
}
