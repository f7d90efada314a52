/** The parts of an API Gateway proxy request and response that the REST handlers use. */
module Http {
  import opened Wrappers

  /** A response with its status code and the (already parsed) JSON body. */
  datatype Response<B> = Response(statusCode: nat, body: B)

  /** `event.queryStringParameters`: absent (`null`) or a map from parameter name to value. */
  type Query = Option<map<string, string>>

  /** `q[name]`, `undefined` when the parameter is missing. */
  function Param(q: map<string, string>, name: string): Option<string> {
    if name in q then Some(q[name]) else None
  }

  /** The message of the store's validation error when a key attribute is `undefined`. */
  const InvalidKeyMessage: string := "The provided key element does not match the schema"

  const BadRequest: string := "Bad Request"

  /** JavaScript truthiness of an optional string: `undefined` and `""` are falsy. */
  predicate Truthy(v: Option<string>) {
    v.Some? && v.value != ""
  }
}
