# Music-store catalog: a verified model of the in-memory store

This project models the back end of the music-store catalog (`Practice_4-6/server.js`).
The server keeps two module-level arrays, `categories` and `products`, seeded at start-up
with seven categories and ten products. Its REST handlers create, list, read, patch and
delete records in them, and one route reports a category together with its products and
their metrics (count, mean rating, total stock, cheapest and dearest price).

The model has six modules:

- `Wrappers`: the `Option` type, used for absent JSON keys.
- `JsText`: ECMAScript `String.prototype.trim` over the WhiteSpace and LineTerminator code
  points, and JavaScript falsiness of an optional string.
- `Sequences`: `Array.prototype.filter`, with its algebra (it distributes over
  concatenation, keeps everything when every element passes, drops exactly one element
  when exactly one fails).
- `Catalog`: the records (`Category`, `Product`), the request bodies, the handler
  responses with the server's own error messages, `find`/`some` lookups, `filter`
  wrappers, the patches, the store invariant and the seed data.
- `Aggregation`: the metrics of `/api/categories/{id}/with-products`.
- `Store`: the class `CatalogStore`, whose two `seq` fields are the two arrays and whose
  methods are the route handlers, each updating the fields in place; `StartStore` builds
  the seeded store; `WalkThrough` chains the handlers through a create / refuse-delete /
  delete cycle.

The store invariant (`Catalog.Consistent`, the class's `Valid()`) is:

- ids are unique in each collection;
- every product's `categoryId` names a category in the store;
- category names and descriptions are stored trimmed, and so are product names.

Every handler keeps it. Each handler's contract gives the full outcome for every branch the
code takes, in the order the code tests them, and states the new contents of both
collections.

The handlers are looser than one might expect in several places, and the model follows the
code:

- A whitespace-only `name` is truthy, so it passes the `!name` check and is stored as `""`
  (`Catalog.BlankNameAccepted`).
- DELETE of a category checks for referencing products (409) before it checks that the
  category exists (404).
- Neither POST nor PATCH of a product checks the range of `price`, `stock` or `rating`.
- Any key makes a PATCH body non-empty, even an unrecognised one; such a body is answered
  with 200 and changes nothing.
- `GET /api/products?categoryId=` with an empty value lists every product.
- Product `description` and `image` are stored as sent, without trimming. Category
  `description` is trimmed.
- PATCH of a product writes `stock` as sent. The `|| 0` default applies only at creation.

## Model

| member | source | states |
|---|---|---|
| JsText.LeadingBlanks | Practice_4-6/server.js:197 | the length of the white-space prefix that `trim` removes: all of it white space, and the next character not |
| JsText.ContentEnd | Practice_4-6/server.js:197 | where the white-space suffix that `trim` removes begins: everything after it is white space, and the character before it is not |
| JsText.Trim | Practice_4-6/server.js:197 | the result of `trim` neither starts nor ends with white space |
| JsText.TrimIsInfix | Practice_4-6/server.js:197 | `trim` returns an infix of its input, with only white space cut from either end |
| JsText.TrimIdempotent | Practice_4-6/server.js:288 | trimming a trimmed string changes nothing, so re-sending a stored name is harmless |
| JsText.TrimOfTrimmed | Practice_4-6/server.js:288 | a string with no white space at either end is its own trim |
| JsText.Truthy | Practice_4-6/server.js:193 | the definition of JavaScript truthiness for an optional string: an absent value and "" are falsy, every other string is truthy |
| JsText.TrimEmptyIffBlank | Practice_4-6/server.js:193-197 | `trim` yields "" exactly when the input is all white space |
| Sequences.Filter | Practice_4-6/server.js:405 | the result is no longer than the input, and holds exactly the input's elements that pass the predicate |
| Sequences.FilterConcat | Practice_4-6/server.js:405 | filtering distributes over concatenation, so the result keeps the original order |
| Sequences.FilterSingleton | Practice_4-6/server.js:405 | a one-element list is kept or dropped whole |
| Sequences.FilterKeepsAll | Practice_4-6/server.js:523 | when every element passes, `filter` is the identity |
| Sequences.FilterDropsOne | Practice_4-6/server.js:523 | when exactly the element at k fails, `filter` removes that one element and keeps the rest in order |
| Catalog.CategoryKeyCount | Practice_4-6/server.js:284 | `Object.keys(body).length` is 0 iff no recognised key and no other key was sent |
| Catalog.ProductKeyCount | Practice_4-6/server.js:481 | `Object.keys(body).length` is 0 iff none of the seven product keys and no other key was sent |
| Catalog.HasCategory | Practice_4-6/server.js:317 | `categories.some(...)` holds iff the category at some index has the id |
| Catalog.HasProduct | Practice_4-6/server.js:521 | `products.some(...)` holds iff the product at some index has the id |
| Catalog.IsReferenced | Practice_4-6/server.js:313 | `products.some(...)` holds iff the product at some index has that `categoryId` |
| Catalog.FindCategory | Practice_4-6/server.js:86-93 | absent iff no category has the id; otherwise the index of the first category with that id |
| Catalog.FindProduct | Practice_4-6/server.js:77-84 | absent iff no product has the id; otherwise the index of the first product with that id |
| Catalog.ProductsOf | Practice_4-6/server.js:405 | the category filter is no longer than the product list and holds exactly the products with that `categoryId` |
| Catalog.WithoutCategory | Practice_4-6/server.js:320 | the filtered list holds exactly the other categories; no category with the id is left |
| Catalog.WithoutProduct | Practice_4-6/server.js:523 | the filtered list holds exactly the other products; no product with the id is left |
| Catalog.ProductsOfExactly | Practice_4-6/server.js:404-406 | the category filter holds exactly the products with that `categoryId`, and it is empty iff no product refers to the category |
| Catalog.ProductsOfAppend | Practice_4-6/server.js:558 | a newly appended product appears at the end of its own category's listing and in no other listing |
| Catalog.WithoutCategoryRemovesOne | Practice_4-6/server.js:320 | with unique ids, removing a present category drops exactly the entry `find` locates and keeps the order |
| Catalog.WithoutProductRemovesOne | Practice_4-6/server.js:523 | with unique ids, removing a present product drops exactly the entry `find` locates and keeps the order |
| Catalog.WithoutCategoryUnique | Practice_4-6/server.js:320 | removing a category keeps category ids unique |
| Catalog.WithoutProductUnique | Practice_4-6/server.js:523 | removing a product keeps product ids unique |
| Catalog.ReferencedCategoryExists | Practice_4-6/server.js:312-318 | under the invariant a referenced category exists, so 409 is only ever given for a category that exists |
| Catalog.NewCategory | Practice_4-6/server.js:195-199 | the new category has the fresh id, the trimmed name, and the trimmed description or "" when none was sent; both texts are trimmed |
| Catalog.NewProduct | Practice_4-6/server.js:366-375 | the new product has the fresh id, the trimmed name, the category and price as sent, and "", 0, 0 and "" for an omitted description, stock, rating and image |
| Catalog.RepostCategoryAsPatch | Practice_4-6/server.js:195-199 | sending the creation body again as a PATCH leaves the new category unchanged |
| Catalog.RepostProductAsPatch | Practice_4-6/server.js:366-375 | sending the creation body again as a PATCH leaves the new product unchanged, defaults included |
| Catalog.PatchCategory | Practice_4-6/server.js:287-289 | the id is kept; each supplied field is written trimmed; each absent field keeps its value |
| Catalog.PatchProduct | Practice_4-6/server.js:485-498 | the id is kept; a supplied name is written trimmed; the other supplied fields are written as sent; absent fields keep their values |
| Catalog.PatchCategoryIdempotent | Practice_4-6/server.js:287-289 | applying the same category patch twice gives the same record as applying it once |
| Catalog.PatchProductIdempotent | Practice_4-6/server.js:487-498 | applying the same product patch twice gives the same record as applying it once |
| Catalog.UnknownKeysOnlyCategoryPatch | Practice_4-6/server.js:284-289 | a body with only unrecognised keys passes the emptiness check and leaves the category unchanged |
| Catalog.UnknownKeysOnlyProductPatch | Practice_4-6/server.js:481-498 | a body with only unrecognised keys passes the emptiness check and leaves the product unchanged |
| Catalog.BlankNameAccepted | Practice_4-6/server.js:193-197 | a non-empty whitespace-only name passes the `!name` check and is stored as "" |
| Catalog.AppendCategoryConsistent | Practice_4-6/server.js:195-200 | appending a category with a fresh id and trimmed text keeps the invariant |
| Catalog.AppendProductConsistent | Practice_4-6/server.js:363-377 | appending a product with a fresh id, a resolving category and a trimmed name keeps the invariant |
| Catalog.PatchCategoryConsistent | Practice_4-6/server.js:287-289 | patching a category in place keeps the invariant, since the id is unchanged and the text is trimmed |
| Catalog.PatchProductConsistent | Practice_4-6/server.js:487-498 | patching a product in place keeps the invariant, provided a supplied `categoryId` resolves (the handler checks that first) |
| Catalog.DeleteCategoryConsistent | Practice_4-6/server.js:313-320 | removing an unreferenced category keeps the invariant, so no product is left dangling |
| Catalog.DeleteProductConsistent | Practice_4-6/server.js:523 | removing a product keeps the invariant |
| Catalog.SeedCategories | Practice_4-6/server.js:13-21 | seven categories, the j-th carrying the j-th generated id |
| Catalog.SeedProducts | Practice_4-6/server.js:23-34 | ten products, the j-th carrying the j-th generated id and filed under the seed category the source names for it |
| Catalog.SeedConsistent | Practice_4-6/server.js:13-34 | the seven seed categories and ten seed products satisfy the invariant whenever the generated ids are distinct |
| Catalog.SeedReferencesResolve | Practice_4-6/server.js:24-33 | each seed product's `categoryId` is the id of a seed category |
| Catalog.SeedCategoriesTrimmed | Practice_4-6/server.js:14-20 | the seed categories' names and descriptions are trimmed |
| Catalog.SeedProductsTrimmed | Practice_4-6/server.js:24-33 | the seed products' names are trimmed |
| Aggregation.SumStock | Practice_4-6/server.js:565 | the definition: `reduce` of the stocks from 0, folding from the left |
| Aggregation.SumRating | Practice_4-6/server.js:563 | the definition: `reduce` of the ratings from 0, folding from the left |
| Aggregation.SumStockConcat | Practice_4-6/server.js:565 | the stock total of two lists run together is the sum of their totals, so the left fold is the plain sum |
| Aggregation.SumRatingConcat | Practice_4-6/server.js:563 | the rating total of two lists run together is the sum of their totals, so the left fold is the plain sum |
| Aggregation.MinPrice | Practice_4-6/server.js:566-568 | for a non-empty list, no price is below it and some product has it |
| Aggregation.MaxPrice | Practice_4-6/server.js:569-571 | for a non-empty list, no price is above it and some product has it |
| Aggregation.Aggregate | Practice_4-6/server.js:560-572 | the count is the list's length and the total stock is the sum of the stocks; all figures are 0 for an empty list; otherwise the mean rating times the count is the sum of the ratings, minPrice ≤ every price ≤ maxPrice, and both bounds are attained |
| Aggregation.SumRatingBounds | Practice_4-6/server.js:563 | if every rating lies in [lo, hi], the sum of n ratings lies in [n·lo, n·hi] |
| Aggregation.AvgRatingBounds | Practice_4-6/server.js:562-564 | if every rating lies in [lo, hi], so does the mean rating of a non-empty category |
| Aggregation.MinPriceAppend | Practice_4-6/server.js:567 | appending a product makes the minimum the smaller of the old minimum and its price |
| Aggregation.MaxPriceAppend | Practice_4-6/server.js:570 | appending a product makes the maximum the larger of the old maximum and its price |
| Aggregation.AggregateAppend | Practice_4-6/server.js:560-572 | adding a product to a category adds one to the count, its stock to the total stock and its rating to the rating total behind the mean, and widens the price range to include its price |
| Store.CatalogStore.constructor | Practice_4-6/server.js:13-34 | a store holding the given collections, which must satisfy the invariant |
| Store.StartStore | Practice_4-6/server.js:13-34 | the start-up store holds exactly the seed records and satisfies the invariant |
| Store.CatalogStore.CreateCategory | Practice_4-6/server.js:191-202 | a falsy name gives 400 "Name is required" and changes nothing; otherwise the category with trimmed name and description (default "") is appended and returned; the invariant is kept |
| Store.CatalogStore.ListCategories | Practice_4-6/server.js:220-222 | returns the categories in insertion order |
| Store.CatalogStore.GetCategory | Practice_4-6/server.js:245-248 | 200 with the category iff one has the id, otherwise 404 "Category not found" |
| Store.CatalogStore.UpdateCategory | Practice_4-6/server.js:281-291 | 404 for an unknown id, then 400 "Nothing to update" for an empty body, otherwise the found record is replaced by its patch and returned; products untouched; the invariant is kept |
| Store.CatalogStore.DeleteCategory | Practice_4-6/server.js:312-322 | 409 while any product refers to the id (checked first), then 404 if absent, otherwise exactly that category is removed in order; the invariant is kept |
| Store.CatalogStore.CreateProduct | Practice_4-6/server.js:356-379 | 400 unless name and categoryId are truthy and price is present, then 404 for an unknown category, otherwise the product with its defaults is appended and returned; the invariant is kept |
| Store.CatalogStore.ListProducts | Practice_4-6/server.js:402-409 | a truthy `categoryId` gives exactly that category's products in store order; an absent or empty one gives every product |
| Store.CatalogStore.GetProductWithCategory | Practice_4-6/server.js:435-444 | 200 iff the product exists, otherwise 404 "Product not found"; the category is returned iff it resolves, which the invariant guarantees |
| Store.CatalogStore.UpdateProduct | Practice_4-6/server.js:478-501 | 404 for an unknown id, then 400 for an empty body, then 404 "Category not found" for an unknown supplied `categoryId` with nothing written, otherwise the found record is replaced by its patch; the invariant is kept |
| Store.CatalogStore.DeleteProduct | Practice_4-6/server.js:520-525 | 404 if absent, otherwise exactly that product is removed in order; the invariant is kept |
| Store.CatalogStore.CategoryWithProducts | Practice_4-6/server.js:554-579 | 200 iff the category exists, with exactly its products in store order and their metrics; otherwise 404 |
| Store.WalkThrough | Practice_4-6/server.js:312-322 | creating a category and a product under it succeeds; deleting the category is then refused with 409; after the product is deleted the category is deleted; the store ends as it began |

## Left out

- Express routing, JSON parsing, CORS, the request logger, the catch-all 404 and 500 handlers, and the Swagger documentation: these are plumbing around the handlers.
- `nanoid(6)`: the id generator is random, so each creating handler takes the generated id as a parameter. The only requirement on it is that the id is not already in use. `StartStore` takes the seven category ids and the ten product ids. It requires the category ids to differ from each other and the product ids to differ from each other.
- `Number(...)` coercion and NaN: numeric fields arrive already converted. At creation, a `stock` that converts to NaN or to 0 is passed as absent or 0, and both give the `|| 0` default.
- JSON values of the wrong type (`null`, numbers where strings are expected): `trim` on them would throw. Bodies are modelled with string-typed fields only. In the server a throwing `trim` in a PATCH answers 500 after earlier fields have already been written: for example, a product PATCH with a valid `categoryId` and a numeric `name` writes the category at line 490 and then throws at line 493, and a category PATCH with `description: null` writes the name at line 288 first. The all-or-nothing contracts of `UpdateCategory` and `UpdateProduct` hold only for bodies whose text fields are strings.
- Aggregation.Aggregate: the mean rating is the exact quotient of the rating total by the count. `toFixed(2)` rounding is not modelled.
- Floating-point arithmetic: prices, ratings and their sums are exact reals, so the model has no rounding error.
- Object aliasing: records are values, and a PATCH replaces the element in the collection. The handler's mutation of the shared object has the same observable result, since no other reference to it survives the request.
- The React front end and `Practice_1-2/app.js` are not part of this model.
