/** The product repository: a table of products keyed by `id`. */
module ProductsLayer {
  import opened Wrappers

  /** A product; prices are integers (cents). */
  datatype Product = Product(
    id: string,
    productName: string,
    code: string,
    price: int,
    model: string,
    productUrl: string)

  type ProductTable = map<string, Product>

  const ProductNotFound: string := "Product not found"

  /** The error of an update whose `attribute_exists(id)` condition fails. */
  const ConditionalCheckFailed: string := "The conditional request failed"

  /** The error of a `batchGet` whose key list is empty, too long, or repeats a key. */
  const InvalidBatchKeys: string := "ValidationException: invalid list of item keys"

  /** The most keys one `batchGet` accepts. */
  const BatchGetLimit: nat := 100

  ghost predicate WellKeyed(table: ProductTable) {
    forall id | id in table :: table[id].id == id
  }

  predicate NoDuplicates(ids: seq<string>) {
    forall i, j | 0 <= i < j < |ids| :: ids[i] != ids[j]
  }

  /** The distinct requested ids that are stored. */
  function StoredIds(table: ProductTable, ids: seq<string>): set<string> {
    set i | 0 <= i < |ids| && ids[i] in table :: ids[i]
  }

  /** The stored products among the requested ids, in request order. */
  function Found(table: ProductTable, ids: seq<string>): seq<Product>
    decreases |ids|
  {
    if ids == [] then []
    else
      var n := |ids| - 1;
      Found(table, ids[..n]) + (if ids[n] in table then [table[ids[n]]] else [])
  }

  /** `findManyByIds`: `batchGet` rejects an empty, over-long or repeating key list. */
  function BatchGet(table: ProductTable, ids: seq<string>): Result<seq<Product>, string> {
    if |ids| == 0 || |ids| > BatchGetLimit || !NoDuplicates(ids) then Failure(InvalidBatchKeys)
    else Success(Found(table, ids))
  }

  /**
   * Only stored products whose id was requested come back, never more than were
   * requested, and all of them exactly when every requested id is stored. For a list
   * without repeats (the only kind `batchGet` accepts) the results are pairwise distinct
   * and there are exactly as many as distinct requested ids that are stored.
   */
  lemma {:induction false} FoundProducts(table: ProductTable, ids: seq<string>)
    requires WellKeyed(table)
    ensures forall p | p in Found(table, ids) :: p.id in ids && p.id in table && table[p.id] == p
    ensures |Found(table, ids)| <= |ids|
    ensures |Found(table, ids)| == |ids| <==> forall i | 0 <= i < |ids| :: ids[i] in table
    ensures NoDuplicates(ids) ==> |Found(table, ids)| == |StoredIds(table, ids)|
    ensures NoDuplicates(ids) ==>
      forall i, j | 0 <= i < j < |Found(table, ids)| :: Found(table, ids)[i] != Found(table, ids)[j]
    decreases |ids|
  {
    if ids != [] {
      var n := |ids| - 1;
      FoundProducts(table, ids[..n]);
      assert forall i | 0 <= i < n :: ids[..n][i] == ids[i];
      if ids[n] !in table {
        assert |Found(table, ids)| < |ids|;
      }
      if NoDuplicates(ids) {
        FoundWithoutRepeats(table, ids);
      }
    }
  }

  /** One more step of the induction above, for a list without repeats. */
  lemma FoundWithoutRepeats(table: ProductTable, ids: seq<string>)
    requires WellKeyed(table) && ids != [] && NoDuplicates(ids)
    requires var prefix := ids[..|ids| - 1];
      && (forall p | p in Found(table, prefix) :: p.id in prefix)
      && |Found(table, prefix)| == |StoredIds(table, prefix)|
      && forall i, j | 0 <= i < j < |Found(table, prefix)| :: Found(table, prefix)[i] != Found(table, prefix)[j]
    ensures |Found(table, ids)| == |StoredIds(table, ids)|
    ensures forall i, j | 0 <= i < j < |Found(table, ids)| :: Found(table, ids)[i] != Found(table, ids)[j]
  {
    var n := |ids| - 1;
    var prefix := ids[..n];
    assert ids[n] !in prefix;
    StoredIdsSnoc(table, ids);
    var found := Found(table, ids);
    if ids[n] in table {
      forall i, j | 0 <= i < j < |found| ensures found[i] != found[j] {
        if j == |found| - 1 {
          assert found[i] in Found(table, prefix);
          assert found[j].id == ids[n];
        } else {
          assert found[i] == Found(table, prefix)[i] && found[j] == Found(table, prefix)[j];
        }
      }
    }
  }

  /** The stored ids of a list grow by its last id when that id is stored. */
  lemma StoredIdsSnoc(table: ProductTable, ids: seq<string>)
    requires ids != []
    ensures var n := |ids| - 1;
      StoredIds(table, ids) == StoredIds(table, ids[..n]) + (if ids[n] in table then {ids[n]} else {})
  {
    var n := |ids| - 1;
    forall x | x in StoredIds(table, ids)
      ensures x in StoredIds(table, ids[..n]) + (if ids[n] in table then {ids[n]} else {})
    {
      var i :| 0 <= i < |ids| && ids[i] in table && ids[i] == x;
      if i < n {
        assert ids[..n][i] == x;
      }
    }
    forall x | x in StoredIds(table, ids[..n]) ensures x in StoredIds(table, ids) {
      var i :| 0 <= i < n && ids[..n][i] in table && ids[..n][i] == x;
      assert ids[i] == x;
    }
  }

  class ProductRepository {
    var table: ProductTable

    ghost predicate Valid()
      reads this
    {
      WellKeyed(table)
    }

    constructor(initial: ProductTable)
      requires WellKeyed(initial)
      ensures Valid()
      ensures table == initial
    {
      table := initial;
    }

    /** `findAll`: every stored product exactly once (the scan's order is not modelled). */
    method FindAll() returns (products: seq<Product>)
      requires Valid()
      ensures |products| == |table|
      ensures forall i | 0 <= i < |products| :: products[i].id in table && table[products[i].id] == products[i]
      ensures forall id | id in table :: table[id] in products
    {
      products := [];
      var remaining := table.Keys;
      while remaining != {}
        invariant remaining <= table.Keys
        invariant |products| + |remaining| == |table|
        invariant forall i | 0 <= i < |products| :: products[i].id in table.Keys - remaining && table[products[i].id] == products[i]
        invariant forall id | id in table.Keys - remaining :: table[id] in products
        decreases |remaining|
      {
        var id :| id in remaining;
        products := products + [table[id]];
        remaining := remaining - {id};
      }
    }

    method FindOne(productId: string) returns (r: Result<Product, string>)
      ensures productId in table ==> r == Success(table[productId])
      ensures productId !in table ==> r == Failure(ProductNotFound)
    {
      if productId in table {
        r := Success(table[productId]);
      } else {
        r := Failure(ProductNotFound);
      }
    }

    /** `create`: the given id is replaced by the fresh `newId`, then the product is put. */
    method Create(product: Product, newId: string) returns (created: Product)
      requires Valid()
      modifies this
      ensures Valid()
      ensures created == product.(id := newId)
      ensures table == old(table)[newId := created]
    {
      created := product.(id := newId);
      table := table[newId := created];
    }

    /** `delete` with ALL_OLD: the removed product, or not-found with the table unchanged. */
    method Delete(productId: string) returns (r: Result<Product, string>)
      requires Valid()
      modifies this
      ensures Valid()
      ensures productId in old(table) ==> r == Success(old(table)[productId]) && table == old(table) - {productId}
      ensures productId !in old(table) ==> r == Failure(ProductNotFound) && table == old(table)
    {
      if productId in table {
        r := Success(table[productId]);
        table := table - {productId};
      } else {
        r := Failure(ProductNotFound);
      }
    }

    /**
     * `update` under `attribute_exists(id)`: the five attributes are replaced and the id is
     * kept; the returned product is the new attributes with that id.
     */
    method Update(productId: string, product: Product) returns (r: Result<Product, string>)
      requires Valid()
      modifies this
      ensures Valid()
      ensures productId in old(table) ==>
        r == Success(product.(id := productId)) && table == old(table)[productId := product.(id := productId)]
      ensures productId !in old(table) ==> r == Failure(ConditionalCheckFailed) && table == old(table)
    {
      if productId in table {
        var updated := product.(id := productId);
        table := table[productId := updated];
        r := Success(updated);
      } else {
        r := Failure(ConditionalCheckFailed);
      }
    }

    method FindManyByIds(productIds: seq<string>) returns (r: Result<seq<Product>, string>)
      ensures r == BatchGet(table, productIds)
    {
      if |productIds| == 0 || |productIds| > BatchGetLimit || !NoDuplicates(productIds) {
        return Failure(InvalidBatchKeys);
      }
      var found := [];
      for i := 0 to |productIds|
        invariant found == Found(table, productIds[..i])
      {
        assert productIds[..i + 1][..i] == productIds[..i];
        if productIds[i] in table {
          found := found + [table[productIds[i]]];
        }
      }
      assert productIds[..|productIds|] == productIds;
      r := Success(found);
    }
  }
}
