/** The products admin API as deployed: routing to constant answers (no store access). */
module ProductsAdmin {
  import opened Wrappers
  import opened Http

  /** `${productId}` of an optional path parameter: "undefined" when it is missing. */
  function Interpolate(v: Option<string>): string {
    if v.Some? then v.value else "undefined"
  }

  /** `handler`; the body is the `message` of the JSON answer. */
  function Handler(resource: string, httpMethod: string, productId: Option<string>): Response<string> {
    if resource == "/products" then Response(201, "POST /products - OK")
    else if resource == "/products/{productId}" && httpMethod == "PUT" then
      Response(200, "PUT /products/" + Interpolate(productId))
    else if resource == "/products/{productId}" && httpMethod == "DELETE" then
      Response(200, "DELETE /products/" + Interpolate(productId))
    else Response(400, BadRequest)
  }

  /** Every request on "/products" is answered 201, whatever its method. */
  lemma CollectionAlwaysCreated(httpMethod: string, productId: Option<string>)
    ensures Handler("/products", httpMethod, productId).statusCode == 201
  {
  }

  /** PUT and DELETE on one product answer 200 with a message ending in the product id. */
  lemma ItemUpdateAndDelete(httpMethod: string, id: string)
    requires httpMethod == "PUT" || httpMethod == "DELETE"
    ensures var r := Handler("/products/{productId}", httpMethod, Some(id));
      && r.statusCode == 200
      && |r.body| >= |id| && r.body[|r.body| - |id|..] == id
  {
  }

  /** Any other method on one product, and any other resource, is a bad request. */
  lemma OthersRejected(resource: string, httpMethod: string, productId: Option<string>)
    requires resource != "/products"
    requires resource != "/products/{productId}" || (httpMethod != "PUT" && httpMethod != "DELETE")
    ensures Handler(resource, httpMethod, productId) == Response(400, "Bad Request")
  {
  }
}
