/** The read-only products API: list all products, or fetch one by id. */
module ProductsFetch {
  import opened Wrappers
  import opened Http
  import opened ProductsLayer

  datatype FetchRoute = ListProducts | GetProduct | NoRoute

  /** "/products" answers only GET; "/products/{productId}" answers every method. */
  function Route(resource: string, httpMethod: string): FetchRoute {
    if resource == "/products" && httpMethod == "GET" then ListProducts
    else if resource == "/products/{productId}" then GetProduct
    else NoRoute
  }

  datatype FetchBody = ProductList(products: seq<Product>) | ProductData(product: Product) | Message(message: string)

  /** `handler`; `productId` is the path parameter (absent when the path has none). */
  method Handler(repo: ProductRepository, resource: string, httpMethod: string, productId: Option<string>)
    returns (response: Response<FetchBody>)
    requires repo.Valid()
    ensures Route(resource, httpMethod) == ListProducts ==>
      && response.statusCode == 200 && response.body.ProductList?
      && |response.body.products| == |repo.table|
      && (forall i | 0 <= i < |response.body.products| ::
            var p := response.body.products[i]; p.id in repo.table && repo.table[p.id] == p)
      && (forall id | id in repo.table :: repo.table[id] in response.body.products)
    ensures Route(resource, httpMethod) == GetProduct ==>
      if productId.None? then response == Response(404, Message(InvalidKeyMessage))
      else if productId.value in repo.table then response == Response(200, ProductData(repo.table[productId.value]))
      else response == Response(404, Message(ProductNotFound))
    ensures Route(resource, httpMethod) == NoRoute ==> response == Response(400, Message(BadRequest))
  {
    match Route(resource, httpMethod) {
      case ListProducts =>
        var products := repo.FindAll();
        response := Response(200, ProductList(products));
      case GetProduct =>
        if productId.None? {
          return Response(404, Message(InvalidKeyMessage));
        }
        var found := repo.FindOne(productId.value);
        match found {
          case Success(product) => response := Response(200, ProductData(product));
          case Failure(message) => response := Response(404, Message(message));
        }
      case NoRoute =>
        response := Response(400, Message(BadRequest));
    }
  }

  /** A non-GET request on "/products" falls through to 400, as does any other resource. */
  lemma RouteFallsThrough(resource: string, httpMethod: string)
    ensures resource == "/products" && httpMethod != "GET" ==> Route(resource, httpMethod) == NoRoute
    ensures resource != "/products" && resource != "/products/{productId}" ==> Route(resource, httpMethod) == NoRoute
    ensures resource == "/products/{productId}" ==> Route(resource, httpMethod) == GetProduct
  {
  }
}
