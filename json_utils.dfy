/** Structural validation of a parsed configuration against one schema
    (the `required` and `type` keywords of JSON Schema draft 4, sections 5.4.3
    and 5.5.2 of draft-fge-json-schema-validation-00), and the separate scan for
    keys that no schema of the pipeline declares. */
module JsonUtils {
  import opened Values
  import opened SensorProps

  /** Draft 4 primitive types as the Python validator checks them: an integer
      is an int that is not a bool (a float never is), a string is a str. */
  predicate HasType(v: Value, t: JsonType) {
    match t
    case Integer => v.Int?
    case String => v.Str?
    case Boolean => v.Bool?
  }

  /** The verdict the schema asks for: an object that has every required key
      and whose present declared keys carry their declared types. Keys the
      schema does not declare are not looked at. */
  ghost predicate Conforms(s: Schema, v: Value) {
    && v.Object?
    && (forall n :: n in s.required ==> n in v.fields)
    && (forall n :: n in s.properties && n in v.fields ==> HasType(v.fields[n], s.properties[n]))
  }

  /** One error the validator reports. */
  datatype Violation =
    | NotAnObject
    | MissingRequired(name: string)
    | WrongType(name: string, expected: JsonType)

  /** Every error the validator finds in `v`: the `type: object` error, or one
      `required` error per missing name and one `type` error per present
      declared key of the wrong type. */
  function Violations(s: Schema, v: Value): (errs: set<Violation>)
    ensures !v.Object? ==> errs == {NotAnObject}
    ensures v.Object? ==> forall n :: n in s.required && n !in v.fields <==> MissingRequired(n) in errs
    ensures v.Object? ==> forall n, t ::
      WrongType(n, t) in errs <==>
        n in s.properties && s.properties[n] == t && n in v.fields && !HasType(v.fields[n], t)
    ensures errs == {} <==> Conforms(s, v)
  {
    if !v.Object? then {NotAnObject}
    else
      var missing := set n | n in s.required && n !in v.fields :: MissingRequired(n);
      var mistyped := set n | n in s.properties && n in v.fields && !HasType(v.fields[n], s.properties[n])
        :: WrongType(n, s.properties[n]);
      assert (forall n :: n in s.required ==> n in v.fields) <==> missing == {} by {
        if exists n :: n in s.required && n !in v.fields {
          var n :| n in s.required && n !in v.fields;
          assert MissingRequired(n) in missing;
        }
      }
      assert (forall n :: n in s.properties && n in v.fields ==> HasType(v.fields[n], s.properties[n]))
        <==> mistyped == {} by {
        if exists n :: n in s.properties && n in v.fields && !HasType(v.fields[n], s.properties[n]) {
          var n :| n in s.properties && n in v.fields && !HasType(v.fields[n], s.properties[n]);
          assert WrongType(n, s.properties[n]) in mistyped;
        }
      }
      missing + mistyped
  }

  /** A validator bound to one schema. `formalCheck` repeats the validation
      and `debug` only enables messages; neither changes the verdict. */
  datatype JsonValidator = JsonValidator(schema: Schema, formalCheck: bool := true, debug: bool := false) {

    /** The verdict of `check`: false for a missing input, false when the
        validator reports any error (the errors are only reported), true
        otherwise. The input is a value and is never changed. */
    function Check(input: Value): (ok: bool)
      ensures ok <==> Conforms(schema, input)
    {
      if input.Null? then false
      else if Violations(schema, input) != {} then false
      else if formalCheck && Violations(schema, input) != {} then false
      else true
    }
  }

  /** Keys the schema does not declare never make the check fail. */
  lemma ExtraKeysIgnored(s: Schema, fields: map<string, Value>, k: string, v: Value)
    requires k !in Declared(s)
    requires JsonValidator(s).Check(Object(fields))
    ensures JsonValidator(s).Check(Object(fields[k := v]))
  {
    var fields' := fields[k := v];
    assert forall n :: n in s.properties && n in fields' ==> HasType(fields'[n], s.properties[n]);
  }

  /** The names declared by at least one of the schemas. */
  function DeclaredUnion(schemas: seq<Schema>): (names: set<string>)
    ensures forall n :: n in names <==> exists i :: 0 <= i < |schemas| && n in Declared(schemas[i])
  {
    if schemas == [] then {}
    else
      var rest := DeclaredUnion(schemas[1..]);
      assert forall n :: n in rest <==> exists i :: 1 <= i < |schemas| && n in Declared(schemas[i]) by {
        forall n | n in rest ensures exists i :: 1 <= i < |schemas| && n in Declared(schemas[i]) {
          var j :| 0 <= j < |schemas[1..]| && n in Declared(schemas[1..][j]);
          assert schemas[1..][j] == schemas[j + 1];
        }
        forall n | (exists i :: 1 <= i < |schemas| && n in Declared(schemas[i])) ensures n in rest {
          var i :| 1 <= i < |schemas| && n in Declared(schemas[i]);
          assert schemas[1..][i - 1] == schemas[i];
        }
      }
      Declared(schemas[0]) + rest
  }

  /** The unknown-field check: true when some key of the configuration is
      declared by none of the given schemas. */
  function HasUnknownProperty(schemas: seq<Schema>, fields: map<string, Value>): (unknown: bool)
    ensures unknown <==> exists k :: k in fields && forall i :: 0 <= i < |schemas| ==> k !in Declared(schemas[i])
  {
    !(fields.Keys <= DeclaredUnion(schemas))
  }

  /** For two schemas, the scan reports a key exactly when it lies outside
      both declared sets. */
  lemma UnknownOfPair(a: Schema, b: Schema, fields: map<string, Value>)
    ensures HasUnknownProperty([a, b], fields) <==> !(fields.Keys <= Declared(a) + Declared(b))
  {
    if HasUnknownProperty([a, b], fields) {
      var key :| key in fields && forall i :: 0 <= i < 2 ==> key !in Declared([a, b][i]);
      assert key !in Declared([a, b][0]) && key !in Declared([a, b][1]);
    } else {
      forall key | key in fields ensures key in Declared(a) + Declared(b) {
        var i :| 0 <= i < 2 && key in Declared([a, b][i]);
      }
    }
  }
}
