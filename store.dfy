/**
 * The server's two module-level collections and its route handlers, as one
 * object whose methods update the collections in place.
 */
module Store {
  import opened Wrappers
  import opened JsText
  import opened Catalog
  import opened Aggregation

  /** The body of GET /api/categories/{id}/with-products. */
  datatype CategoryReport = CategoryReport(category: Category, products: seq<Product>, metrics: Metrics)

  class CatalogStore {
    var categories: seq<Category>
    var products: seq<Product>

    /** Unique ids in each collection, every product's category present, stored text trimmed. */
    ghost predicate Valid()
      reads this
    {
      Consistent(categories, products)
    }

    /** A store holding the given collections, which must already satisfy the invariant. */
    constructor (initialCategories: seq<Category>, initialProducts: seq<Product>)
      requires Consistent(initialCategories, initialProducts)
      ensures Valid()
      ensures categories == initialCategories && products == initialProducts
    {
      categories := initialCategories;
      products := initialProducts;
    }

    /** POST /api/categories; `freshId` is the generated id. */
    method CreateCategory(freshId: string, body: CategoryBody) returns (r: Response<Category>)
      requires Valid() && !HasCategory(categories, freshId)
      modifies this
      ensures Valid() && products == old(products)
      ensures !Truthy(body.name) ==> r == BadRequest(NameRequired) && categories == old(categories)
      ensures Truthy(body.name) ==>
        && r == Ok(NewCategory(freshId, body))
        && categories == old(categories) + [r.value]
    {
      if !Truthy(body.name) {
        return BadRequest(NameRequired);
      }
      var c := NewCategory(freshId, body);
      AppendCategoryConsistent(categories, products, c);
      categories := categories + [c];
      r := Ok(c);
    }

    /** GET /api/categories: every category, in insertion order. */
    method ListCategories() returns (r: seq<Category>)
      ensures r == categories
    {
      r := categories;
    }

    /** GET /api/categories/{id}. */
    method GetCategory(id: string) returns (r: Response<Category>)
      ensures r.Ok? <==> HasCategory(categories, id)
      ensures r.Ok? ==> r.value in categories && r.value.id == id
      ensures !r.Ok? ==> r == NotFound(CategoryNotFound)
    {
      match FindCategory(categories, id)
      case None => r := NotFound(CategoryNotFound);
      case Some(k) => r := Ok(categories[k]);
    }

    /** PATCH /api/categories/{id}: lookup, then the empty-body check, then the supplied fields. */
    method UpdateCategory(id: string, body: CategoryBody) returns (r: Response<Category>)
      requires Valid()
      modifies this
      ensures Valid() && products == old(products)
      ensures !HasCategory(old(categories), id) ==>
        r == NotFound(CategoryNotFound) && categories == old(categories)
      ensures HasCategory(old(categories), id) && CategoryKeyCount(body) == 0 ==>
        r == BadRequest(NothingToUpdate) && categories == old(categories)
      ensures HasCategory(old(categories), id) && CategoryKeyCount(body) != 0 ==>
        var k := FindCategory(old(categories), id).value;
        && categories == old(categories)[k := PatchCategory(old(categories)[k], body)]
        && r == Ok(categories[k])
    {
      var found := FindCategory(categories, id);
      if found.None? {
        return NotFound(CategoryNotFound);
      }
      if CategoryKeyCount(body) == 0 {
        return BadRequest(NothingToUpdate);
      }
      var k := found.value;
      PatchCategoryConsistent(categories, products, k, body);
      categories := categories[k := PatchCategory(categories[k], body)];
      r := Ok(categories[k]);
    }

    /** DELETE /api/categories/{id}: the reference check comes before the existence check. */
    method DeleteCategory(id: string) returns (r: Response<()>)
      requires Valid()
      modifies this
      ensures Valid() && products == old(products)
      ensures IsReferenced(old(products), id) ==>
        r == Conflict(CategoryInUse) && categories == old(categories)
      ensures !IsReferenced(old(products), id) && !HasCategory(old(categories), id) ==>
        r == NotFound(CategoryNotFound) && categories == old(categories)
      ensures !IsReferenced(old(products), id) && HasCategory(old(categories), id) ==>
        var k := FindCategory(old(categories), id).value;
        r == Ok(()) && categories == old(categories)[..k] + old(categories)[k + 1..]
    {
      if IsReferenced(products, id) {
        return Conflict(CategoryInUse);
      }
      if !HasCategory(categories, id) {
        return NotFound(CategoryNotFound);
      }
      WithoutCategoryRemovesOne(categories, id);
      DeleteCategoryConsistent(categories, products, id);
      categories := WithoutCategory(categories, id);
      r := Ok(());
    }

    /** POST /api/products; `freshId` is the generated id. */
    method CreateProduct(freshId: string, body: ProductBody) returns (r: Response<Product>)
      requires Valid() && !HasProduct(products, freshId)
      modifies this
      ensures Valid() && categories == old(categories)
      ensures !Truthy(body.name) || body.price.None? || !Truthy(body.categoryId) ==>
        r == BadRequest(ProductFieldsRequired) && products == old(products)
      ensures Truthy(body.name) && body.price.Some? && Truthy(body.categoryId) ==>
        if !HasCategory(categories, body.categoryId.value) then
          r == NotFound(CategoryNotFound) && products == old(products)
        else
          && r == Ok(NewProduct(freshId, body))
          && products == old(products) + [r.value]
    {
      if !Truthy(body.name) || body.price.None? || !Truthy(body.categoryId) {
        return BadRequest(ProductFieldsRequired);
      }
      if FindCategory(categories, body.categoryId.value).None? {
        return NotFound(CategoryNotFound);
      }
      var p := NewProduct(freshId, body);
      AppendProductConsistent(categories, products, p);
      products := products + [p];
      r := Ok(p);
    }

    /** GET /api/products, with the optional `categoryId` query; an empty one is no filter. */
    method ListProducts(categoryId: Option<string>) returns (r: seq<Product>)
      ensures !Truthy(categoryId) ==> r == products
      ensures Truthy(categoryId) ==> r == ProductsOf(products, categoryId.value)
      ensures forall p :: p in r <==> p in products && (Truthy(categoryId) ==> p.categoryId == categoryId.value)
    {
      if Truthy(categoryId) {
        r := ProductsOf(products, categoryId.value);
      } else {
        r := products;
      }
    }

    /** GET /api/products/{id}: the product with its category, or no category if it does not resolve. */
    method GetProductWithCategory(id: string) returns (r: Response<(Product, Option<Category>)>)
      ensures r.Ok? <==> HasProduct(products, id)
      ensures !r.Ok? ==> r == NotFound(ProductNotFound)
      ensures r.Ok? ==> r.value.0 in products && r.value.0.id == id
      ensures r.Ok? ==> (r.value.1.Some? <==> HasCategory(categories, r.value.0.categoryId))
      ensures r.Ok? && r.value.1.Some? ==> r.value.1.value in categories && r.value.1.value.id == r.value.0.categoryId
      ensures r.Ok? && ReferencesResolve(categories, products) ==> r.value.1.Some?
    {
      match FindProduct(products, id)
      case None =>
        r := NotFound(ProductNotFound);
      case Some(k) =>
        var p := products[k];
        match FindCategory(categories, p.categoryId)
        case None => r := Ok((p, None));
        case Some(j) => r := Ok((p, Some(categories[j])));
    }

    /**
     * PATCH /api/products/{id}: lookup, the empty-body check, then a supplied
     * `categoryId` must resolve before any field is written.
     */
    method UpdateProduct(id: string, body: ProductBody) returns (r: Response<Product>)
      requires Valid()
      modifies this
      ensures Valid() && categories == old(categories)
      ensures !HasProduct(old(products), id) ==>
        r == NotFound(ProductNotFound) && products == old(products)
      ensures HasProduct(old(products), id) && ProductKeyCount(body) == 0 ==>
        r == BadRequest(NothingToUpdate) && products == old(products)
      ensures HasProduct(old(products), id) && ProductKeyCount(body) != 0
              && body.categoryId.Some? && !HasCategory(categories, body.categoryId.value) ==>
        r == NotFound(CategoryNotFound) && products == old(products)
      ensures HasProduct(old(products), id) && ProductKeyCount(body) != 0
              && (body.categoryId.Some? ==> HasCategory(categories, body.categoryId.value)) ==>
        var k := FindProduct(old(products), id).value;
        && products == old(products)[k := PatchProduct(old(products)[k], body)]
        && r == Ok(products[k])
    {
      var found := FindProduct(products, id);
      if found.None? {
        return NotFound(ProductNotFound);
      }
      if ProductKeyCount(body) == 0 {
        return BadRequest(NothingToUpdate);
      }
      if body.categoryId.Some? && FindCategory(categories, body.categoryId.value).None? {
        return NotFound(CategoryNotFound);
      }
      var k := found.value;
      PatchProductConsistent(categories, products, k, body);
      products := products[k := PatchProduct(products[k], body)];
      r := Ok(products[k]);
    }

    /** DELETE /api/products/{id}. */
    method DeleteProduct(id: string) returns (r: Response<()>)
      requires Valid()
      modifies this
      ensures Valid() && categories == old(categories)
      ensures !HasProduct(old(products), id) ==>
        r == NotFound(ProductNotFound) && products == old(products)
      ensures HasProduct(old(products), id) ==>
        var k := FindProduct(old(products), id).value;
        r == Ok(()) && products == old(products)[..k] + old(products)[k + 1..]
    {
      if !HasProduct(products, id) {
        return NotFound(ProductNotFound);
      }
      WithoutProductRemovesOne(products, id);
      DeleteProductConsistent(categories, products, id);
      products := WithoutProduct(products, id);
      r := Ok(());
    }

    /** GET /api/categories/{id}/with-products: the category, its products and their metrics. */
    method CategoryWithProducts(id: string) returns (r: Response<CategoryReport>)
      ensures r.Ok? <==> HasCategory(categories, id)
      ensures !r.Ok? ==> r == NotFound(CategoryNotFound)
      ensures r.Ok? ==>
        && r.value.category in categories && r.value.category.id == id
        && r.value.products == ProductsOf(products, id)
        && r.value.metrics == Aggregate(r.value.products)
    {
      match FindCategory(categories, id)
      case None =>
        r := NotFound(CategoryNotFound);
      case Some(k) =>
        var c := categories[k];
        var listed := ProductsOf(products, c.id);
        r := Ok(CategoryReport(c, listed, Aggregate(listed)));
    }
  }

  /** The store the server starts with: the seed records, under ids drawn from the id generator. */
  method StartStore(categoryIds: seq<string>, productIds: seq<string>) returns (store: CatalogStore)
    requires |categoryIds| == 7 && |productIds| == 10
    requires Distinct(categoryIds) && Distinct(productIds)
    ensures fresh(store) && store.Valid()
    ensures store.categories == SeedCategories(categoryIds)
    ensures store.products == SeedProducts(categoryIds, productIds)
  {
    SeedConsistent(categoryIds, productIds);
    store := new CatalogStore(SeedCategories(categoryIds), SeedProducts(categoryIds, productIds));
  }

  /**
   * The end-to-end walk-through on a running store: create a category (say
   * "Guitars"), file a product (say "Tele", price 1000) under it, try to delete the
   * category (refused while referenced), delete the product, and delete the
   * category again (now accepted). The store ends as it began.
   */
  method WalkThrough(store: CatalogStore, guitarsId: string, teleId: string, guitars: string, tele: string)
    returns (created: Response<Product>, blocked: Response<()>, removed: Response<()>, deleted: Response<()>)
    requires store.Valid()
    requires guitars != "" && tele != ""
    requires guitarsId != "" && !HasCategory(store.categories, guitarsId) && !HasProduct(store.products, teleId)
    modifies store
    ensures store.Valid()
    ensures created.Ok? && created.value.stock == 0 && created.value.rating == 0.0
    ensures created.Ok? && created.value.categoryId == guitarsId && created.value.price == 1000.0
    ensures blocked == Conflict(CategoryInUse)
    ensures removed == Ok(())
    ensures deleted == Ok(())
    ensures store.categories == old(store.categories) && store.products == old(store.products)
  {
    ghost var cs0, ps0 := store.categories, store.products;
    ReferencedCategoryExists(cs0, ps0, guitarsId);

    var category := store.CreateCategory(guitarsId, CategoryBody(Some(guitars), None, 0));
    assert category.Ok? && store.categories == cs0 + [category.value];
    assert HasCategory(store.categories, guitarsId) by {
      assert store.categories[|cs0|] in store.categories;
    }

    created := store.CreateProduct(teleId, ProductBody(Some(tele), Some(guitarsId), None, Some(1000.0), None, None, None, 0));
    ghost var ps1 := store.products;
    assert created.Ok? && ps1 == ps0 + [created.value];
    assert IsReferenced(ps1, guitarsId) by {
      assert ps1[|ps0|] in ps1;
    }

    blocked := store.DeleteCategory(guitarsId);
    assert store.products == ps1;

    removed := store.DeleteProduct(teleId);
    ghost var k := FindProduct(ps1, teleId).value;
    assert k == |ps0|;
    assert ps1[..k] == ps0 && ps1[k + 1..] == [];
    assert store.products == ps0;

    deleted := store.DeleteCategory(guitarsId);
  }
}
