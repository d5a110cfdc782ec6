/** Request bodies and JavaScript truthiness as the route handlers see them. */
module Http {
  import opened Wrappers
  import opened Strings

  /** A request body: `request.json()` either rejects or yields an object of string fields. */
  datatype JsonBody = Malformed | Object(fields: map<String, String>)

  /** Destructuring `const { name } = body`: an absent field is `undefined`. */
  function Field(body: JsonBody, name: String): (r: Option<String>)
    requires body.Object?
    ensures r.Some? <==> name in body.fields
    ensures r.Some? ==> r.value == body.fields[name]
  {
    if name in body.fields then Some(body.fields[name]) else None
  }

  /** JavaScript truthiness of an optional string: present and non-empty. */
  predicate Truthy(v: Option<String>) {
    v.Some? && v.value != ""
  }

  /** `String(v)` for a value that may be `undefined`, as string concatenation renders it. */
  function Show(v: Option<String>): String {
    v.GetOr("undefined")
  }

  /** `response.ok` of the Fetch API. */
  predicate IsOk(status: int) {
    200 <= status <= 299
  }
}
