/** JSON values and the code the services call whose behaviour this model does
    not reproduce: encoding/json, the OpenAPI schema validators,
    findDelimitedString and PreFlightChecks. They are supplied as functions. */
module Foreign {
  import opened Base

  /** A decoded `interface{}` value. */
  datatype Json =
    | JNull
    | JBool(b: bool)
    | JNumber(n: int)
    | JString(s: string)
    | JArray(items: seq<Json>)
    | JObject(fields: map<string, Json>)

  /** A decoded `map[string]interface{}`. */
  type Object = map<string, Json>

  datatype Externals = Externals(
    /** `json.Unmarshal(text, &m)` into a `map[string]interface{}`; None is a decode error. */
    unmarshalObject: string -> Option<Object>,
    /** `json.Marshal(v)`. */
    marshal: Json -> string,
    /** `ValidateSchema` (services/task_svc.go): checks a schema against the service's OpenAPI document. */
    validateSchema: string -> Option<Error>,
    /** `validate.AgainstSchema(schema, input, strfmt.Default)`, with the schema given by the
        text it was decoded from (a text that does not decode gives the empty schema). */
    againstSchema: (string, Object) -> Option<Error>,
    /** `findDelimitedString`: the text between the first two `^JSON` markers, if any. */
    findDelimited: string -> Option<string>,
    /** `PreFlightChecks(kube, task, extraVars)`: the runner record and the command, or an error. */
    preFlight: (string, Object) -> Result<(Record, string)>
  )

  /** The error `json.Unmarshal` reports for a text that is not a JSON object. */
  const DecodeError := Rejected("invalid JSON")

  /** A `map[string]string` seen through `json.Marshal` + `json.Unmarshal` as `map[string]interface{}`. */
  function FromRecord(m: Record): (o: Object)
    ensures o.Keys == m.Keys
    ensures forall k :: k in m ==> o[k] == JString(m[k])
  {
    map k | k in m :: JString(m[k])
  }
}
