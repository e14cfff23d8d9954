/**
 * The records of the music-store catalog, the request bodies its handlers read,
 * the responses they produce, and the pure lookups, filters and patches the
 * handlers are built from.
 */
module Catalog {
  import opened Wrappers
  import opened JsText
  import opened Sequences

  datatype Category = Category(id: string, name: string, description: string)

  /** `price` and `rating` are JavaScript numbers, modelled as exact reals; `stock` is an integer. */
  datatype Product = Product(
    id: string,
    name: string,
    categoryId: string,
    description: string,
    price: real,
    stock: int,
    rating: real,
    image: string)

  /**
   * A JSON body for the category routes: the two recognised keys, each absent or
   * present, and the number of other keys it carries.
   */
  datatype CategoryBody = CategoryBody(name: Option<string>, description: Option<string>, extraKeys: nat)

  /**
   * A JSON body for the product routes. Numeric fields arrive already converted
   * by `Number(...)`; for `stock` at creation, `None` also stands for a value
   * that converts to NaN.
   */
  datatype ProductBody = ProductBody(
    name: Option<string>,
    categoryId: Option<string>,
    description: Option<string>,
    price: Option<real>,
    stock: Option<int>,
    rating: Option<real>,
    image: Option<string>,
    extraKeys: nat)

  /** What a handler answers: a value (200, 201 or 204) or an error status with its message. */
  datatype Response<+T> =
    | Ok(value: T)
    | BadRequest(message: string)
    | NotFound(message: string)
    | Conflict(message: string)

  const NameRequired := "Name is required"
  const NothingToUpdate := "Nothing to update"
  const ProductFieldsRequired := "Name, price and categoryId are required"
  const ProductNotFound := "Product not found"
  const CategoryNotFound := "Category not found"
  const CategoryInUse := "Cannot delete category with associated products"

  function Count(present: bool): nat {
    if present then 1 else 0
  }

  /** `Object.keys(body).length` for a category body; zero exactly when nothing was sent. */
  function CategoryKeyCount(b: CategoryBody): (n: nat)
    ensures n == 0 <==> b.name.None? && b.description.None? && b.extraKeys == 0
  {
    Count(b.name.Some?) + Count(b.description.Some?) + b.extraKeys
  }

  /** `Object.keys(body).length` for a product body; zero exactly when nothing was sent. */
  function ProductKeyCount(b: ProductBody): (n: nat)
    ensures n == 0 <==>
      && b.name.None? && b.categoryId.None? && b.description.None? && b.price.None?
      && b.stock.None? && b.rating.None? && b.image.None? && b.extraKeys == 0
  {
    Count(b.name.Some?) + Count(b.categoryId.Some?) + Count(b.description.Some?)
    + Count(b.price.Some?) + Count(b.stock.Some?) + Count(b.rating.Some?)
    + Count(b.image.Some?) + b.extraKeys
  }

  // ----- lookups: Array.prototype.some and Array.prototype.find -----

  /** `categories.some(c => c.id === id)`: true iff the scan meets a category with that id at some index. */
  predicate HasCategory(cs: seq<Category>, id: string)
    ensures HasCategory(cs, id) <==> exists i :: 0 <= i < |cs| && cs[i].id == id
  {
    exists c | c in cs :: c.id == id
  }

  /** `products.some(p => p.id === id)`: true iff the scan meets a product with that id at some index. */
  predicate HasProduct(ps: seq<Product>, id: string)
    ensures HasProduct(ps, id) <==> exists i :: 0 <= i < |ps| && ps[i].id == id
  {
    exists p | p in ps :: p.id == id
  }

  /** `products.some(p => p.categoryId === id)`: some product, at some index, refers to category `id`. */
  predicate IsReferenced(ps: seq<Product>, id: string)
    ensures IsReferenced(ps, id) <==> exists i :: 0 <= i < |ps| && ps[i].categoryId == id
  {
    exists p | p in ps :: p.categoryId == id
  }

  /** The position `categories.find(c => c.id === id)` stops at: the first category with that id. */
  function FindCategory(cs: seq<Category>, id: string): (r: Option<nat>)
    ensures r.None? <==> !HasCategory(cs, id)
    ensures r.Some? ==> r.value < |cs| && cs[r.value].id == id
    ensures r.Some? ==> forall j :: 0 <= j < r.value ==> cs[j].id != id
  {
    if cs == [] then None
    else if cs[0].id == id then Some(0)
    else
      match FindCategory(cs[1..], id)
      case None => None
      case Some(k) => Some(k + 1)
  }

  /** The position `products.find(p => p.id === id)` stops at: the first product with that id. */
  function FindProduct(ps: seq<Product>, id: string): (r: Option<nat>)
    ensures r.None? <==> !HasProduct(ps, id)
    ensures r.Some? ==> r.value < |ps| && ps[r.value].id == id
    ensures r.Some? ==> forall j :: 0 <= j < r.value ==> ps[j].id != id
  {
    if ps == [] then None
    else if ps[0].id == id then Some(0)
    else
      match FindProduct(ps[1..], id)
      case None => None
      case Some(k) => Some(k + 1)
  }

  // ----- filters -----

  /** `products.filter(p => p.categoryId === id)`: the products listed under category `id`. */
  function ProductsOf(ps: seq<Product>, id: string): (r: seq<Product>)
    ensures |r| <= |ps|
    ensures forall p :: p in r <==> p in ps && p.categoryId == id
  {
    Filter(ps, (p: Product) => p.categoryId == id)
  }

  /** `categories.filter(c => c.id !== id)`: every other category survives, and none with that id. */
  function WithoutCategory(cs: seq<Category>, id: string): (r: seq<Category>)
    ensures |r| <= |cs| && !HasCategory(r, id)
    ensures forall c :: c in r <==> c in cs && c.id != id
  {
    Filter(cs, (c: Category) => c.id != id)
  }

  /** `products.filter(p => p.id !== id)`: every other product survives, and none with that id. */
  function WithoutProduct(ps: seq<Product>, id: string): (r: seq<Product>)
    ensures |r| <= |ps| && !HasProduct(r, id)
    ensures forall p :: p in r <==> p in ps && p.id != id
  {
    Filter(ps, (p: Product) => p.id != id)
  }

  /** The category listing holds exactly the products of that category, in store order. */
  lemma ProductsOfExactly(ps: seq<Product>, id: string)
    ensures forall p :: p in ProductsOf(ps, id) <==> p in ps && p.categoryId == id
    ensures forall p {:trigger p in ps} :: p in ps && p.categoryId == id ==> p in ProductsOf(ps, id)
    ensures ProductsOf(ps, id) == [] <==> !IsReferenced(ps, id)
  {
    if ProductsOf(ps, id) != [] {
      assert ProductsOf(ps, id)[0] in ProductsOf(ps, id);
    }
  }

  /** Appending a product extends its category's listing by that product and leaves the others alone. */
  lemma ProductsOfAppend(ps: seq<Product>, p: Product, id: string)
    ensures ProductsOf(ps + [p], id) == ProductsOf(ps, id) + (if p.categoryId == id then [p] else [])
  {
    FilterConcat(ps, [p], (q: Product) => q.categoryId == id);
    FilterSingleton(p, (q: Product) => q.categoryId == id);
  }

  /** With unique ids, removing category `id` removes exactly the one entry found for it. */
  lemma WithoutCategoryRemovesOne(cs: seq<Category>, id: string)
    requires UniqueCategoryIds(cs) && HasCategory(cs, id)
    ensures var k := FindCategory(cs, id).value; WithoutCategory(cs, id) == cs[..k] + cs[k + 1..]
  {
    var k := FindCategory(cs, id).value;
    FilterDropsOne(cs, (c: Category) => c.id != id, k);
  }

  /** With unique ids, removing product `id` removes exactly the one entry found for it. */
  lemma WithoutProductRemovesOne(ps: seq<Product>, id: string)
    requires UniqueProductIds(ps) && HasProduct(ps, id)
    ensures var k := FindProduct(ps, id).value; WithoutProduct(ps, id) == ps[..k] + ps[k + 1..]
  {
    var k := FindProduct(ps, id).value;
    FilterDropsOne(ps, (p: Product) => p.id != id, k);
  }

  // ----- the store invariant -----

  predicate UniqueCategoryIds(cs: seq<Category>) {
    forall i, j :: 0 <= i < j < |cs| ==> cs[i].id != cs[j].id
  }

  predicate UniqueProductIds(ps: seq<Product>) {
    forall i, j :: 0 <= i < j < |ps| ==> ps[i].id != ps[j].id
  }

  /** Referential integrity: every product's `categoryId` names a category in the store. */
  predicate ReferencesResolve(cs: seq<Category>, ps: seq<Product>) {
    forall p | p in ps :: HasCategory(cs, p.categoryId)
  }

  /** Names are stored trimmed (both handlers that write a name call `trim`), and so are category descriptions. */
  predicate StoredTrimmed(cs: seq<Category>, ps: seq<Product>) {
    && (forall c | c in cs :: IsTrimmed(c.name) && IsTrimmed(c.description))
    && (forall p | p in ps :: IsTrimmed(p.name))
  }

  /** The invariant every handler keeps. */
  predicate Consistent(cs: seq<Category>, ps: seq<Product>) {
    && UniqueCategoryIds(cs)
    && UniqueProductIds(ps)
    && ReferencesResolve(cs, ps)
    && StoredTrimmed(cs, ps)
  }

  /** While the invariant holds a referenced category exists, so the delete handler's two checks cannot both fail. */
  lemma ReferencedCategoryExists(cs: seq<Category>, ps: seq<Product>, id: string)
    requires ReferencesResolve(cs, ps)
    ensures IsReferenced(ps, id) ==> HasCategory(cs, id)
  {
    if IsReferenced(ps, id) {
      var p :| p in ps && p.categoryId == id;
    }
  }

  // ----- building and patching records -----

  /**
   * The category built by POST /api/categories: the fresh id, the trimmed name, and
   * the trimmed description or "" when none was sent.
   */
  function NewCategory(id: string, b: CategoryBody): (r: Category)
    requires b.name.Some?
    ensures r.id == id && r.name == Trim(b.name.value)
    ensures r.description == if b.description.Some? then Trim(b.description.value) else ""
    ensures IsTrimmed(r.name) && IsTrimmed(r.description)
  {
    Category(id, Trim(b.name.value), if b.description.Some? then Trim(b.description.value) else "")
  }

  /**
   * The product built by POST /api/products: the fresh id, the trimmed name, the
   * category and price as sent, and "", 0, 0 and "" for an omitted description,
   * stock, rating and image.
   */
  function NewProduct(id: string, b: ProductBody): (r: Product)
    requires b.name.Some? && b.categoryId.Some? && b.price.Some?
    ensures r.id == id && r.name == Trim(b.name.value) && IsTrimmed(r.name)
    ensures r.categoryId == b.categoryId.value && r.price == b.price.value
    ensures r.description == b.description.GetOr("") && r.image == b.image.GetOr("")
    ensures r.stock == b.stock.GetOr(0) && r.rating == b.rating.GetOr(0.0)
  {
    Product(id, Trim(b.name.value), b.categoryId.value, b.description.GetOr(""),
            b.price.value, b.stock.GetOr(0), b.rating.GetOr(0.0), b.image.GetOr(""))
  }

  /** PATCH /api/categories/{id} applied to one record: each supplied field is trimmed and written. */
  function PatchCategory(c: Category, b: CategoryBody): (r: Category)
    ensures r.id == c.id
    ensures r.name == if b.name.Some? then Trim(b.name.value) else c.name
    ensures r.description == if b.description.Some? then Trim(b.description.value) else c.description
  {
    c.(name := if b.name.Some? then Trim(b.name.value) else c.name,
       description := if b.description.Some? then Trim(b.description.value) else c.description)
  }

  /**
   * PATCH /api/products/{id} applied to one record: each supplied field is written
   * (only `name` is trimmed); absent fields and the id keep their values.
   */
  function PatchProduct(p: Product, b: ProductBody): (r: Product)
    ensures r.id == p.id
    ensures r.name == if b.name.Some? then Trim(b.name.value) else p.name
    ensures r.categoryId == b.categoryId.GetOr(p.categoryId)
    ensures r.description == b.description.GetOr(p.description)
    ensures r.price == b.price.GetOr(p.price)
    ensures r.stock == b.stock.GetOr(p.stock)
    ensures r.rating == b.rating.GetOr(p.rating)
    ensures r.image == b.image.GetOr(p.image)
  {
    Product(p.id,
            if b.name.Some? then Trim(b.name.value) else p.name,
            b.categoryId.GetOr(p.categoryId),
            b.description.GetOr(p.description),
            b.price.GetOr(p.price),
            b.stock.GetOr(p.stock),
            b.rating.GetOr(p.rating),
            b.image.GetOr(p.image))
  }

  /** Sending the same category patch twice has the effect of sending it once. */
  lemma PatchCategoryIdempotent(c: Category, b: CategoryBody)
    ensures PatchCategory(PatchCategory(c, b), b) == PatchCategory(c, b)
  {
    if b.name.Some? { TrimIdempotent(b.name.value); }
    if b.description.Some? { TrimIdempotent(b.description.value); }
  }

  /** Sending the same product patch twice has the effect of sending it once. */
  lemma PatchProductIdempotent(p: Product, b: ProductBody)
    ensures PatchProduct(PatchProduct(p, b), b) == PatchProduct(p, b)
  {
    var once := PatchProduct(p, b);
    var twice := PatchProduct(once, b);
    if b.name.Some? { TrimIdempotent(b.name.value); }
    assert twice.name == once.name;
    assert twice.categoryId == once.categoryId && twice.description == once.description;
    assert twice.price == once.price && twice.stock == once.stock;
    assert twice.rating == once.rating && twice.image == once.image;
  }

  /** Sending the creation body again as a PATCH leaves the new category as it is. */
  lemma RepostCategoryAsPatch(id: string, b: CategoryBody)
    requires b.name.Some?
    ensures PatchCategory(NewCategory(id, b), b) == NewCategory(id, b)
  {
    TrimIdempotent(b.name.value);
    if b.description.Some? { TrimIdempotent(b.description.value); }
  }

  /** Sending the creation body again as a PATCH leaves the new product as it is. */
  lemma RepostProductAsPatch(id: string, b: ProductBody)
    requires b.name.Some? && b.categoryId.Some? && b.price.Some?
    ensures PatchProduct(NewProduct(id, b), b) == NewProduct(id, b)
  {
    var created := NewProduct(id, b);
    var patched := PatchProduct(created, b);
    TrimIdempotent(b.name.value);
    assert patched.name == created.name;
    assert patched.description == created.description && patched.image == created.image;
    assert patched.stock == created.stock && patched.rating == created.rating;
  }

  /** A category body with only unrecognised keys passes the emptiness check and changes nothing. */
  lemma UnknownKeysOnlyCategoryPatch(c: Category, b: CategoryBody)
    requires b.name.None? && b.description.None? && b.extraKeys > 0
    ensures CategoryKeyCount(b) != 0 && PatchCategory(c, b) == c
  {
  }

  /** A product body with only unrecognised keys passes the emptiness check and changes nothing. */
  lemma UnknownKeysOnlyProductPatch(p: Product, b: ProductBody)
    requires b.name.None? && b.categoryId.None? && b.description.None? && b.price.None?
    requires b.stock.None? && b.rating.None? && b.image.None? && b.extraKeys > 0
    ensures ProductKeyCount(b) != 0 && PatchProduct(p, b) == p
  {
  }

  /** A whitespace-only name is truthy, so it is accepted, and it is stored as the empty string. */
  lemma BlankNameAccepted(name: string)
    requires name != [] && Blank(name)
    ensures Truthy(Some(name)) && Trim(name) == ""
  {
    TrimEmptyIffBlank(name);
  }

  // ----- every mutation keeps the invariant -----

  /** Appending a category whose id is fresh and whose text is trimmed keeps the invariant. */
  lemma AppendCategoryConsistent(cs: seq<Category>, ps: seq<Product>, c: Category)
    requires Consistent(cs, ps)
    requires !HasCategory(cs, c.id) && IsTrimmed(c.name) && IsTrimmed(c.description)
    ensures Consistent(cs + [c], ps)
  {
    var cs' := cs + [c];
    forall i, j | 0 <= i < j < |cs'| ensures cs'[i].id != cs'[j].id {
      if j == |cs| { assert cs'[i] in cs; }
    }
    forall p | p in ps ensures HasCategory(cs', p.categoryId) {
      var d :| d in cs && d.id == p.categoryId;
      assert d in cs';
    }
  }

  /** Appending a product with a fresh id, a resolving category and a trimmed name keeps the invariant. */
  lemma AppendProductConsistent(cs: seq<Category>, ps: seq<Product>, p: Product)
    requires Consistent(cs, ps)
    requires !HasProduct(ps, p.id) && HasCategory(cs, p.categoryId) && IsTrimmed(p.name)
    ensures Consistent(cs, ps + [p])
  {
    var ps' := ps + [p];
    forall i, j | 0 <= i < j < |ps'| ensures ps'[i].id != ps'[j].id {
      if j == |ps| { assert ps'[i] in ps; }
    }
  }

  /** Patching the category at `k` keeps its id, so the invariant survives. */
  lemma PatchCategoryConsistent(cs: seq<Category>, ps: seq<Product>, k: nat, b: CategoryBody)
    requires Consistent(cs, ps) && k < |cs|
    ensures Consistent(cs[k := PatchCategory(cs[k], b)], ps)
  {
    var cs' := cs[k := PatchCategory(cs[k], b)];
    forall p | p in ps ensures HasCategory(cs', p.categoryId) {
      var d :| d in cs && d.id == p.categoryId;
      var j :| 0 <= j < |cs| && cs[j] == d;
      assert cs'[j] in cs' && cs'[j].id == d.id;
    }
  }

  /**
   * Patching the product at `k` keeps the invariant provided a supplied
   * `categoryId` resolves, which is what the handler checks first.
   */
  lemma PatchProductConsistent(cs: seq<Category>, ps: seq<Product>, k: nat, b: ProductBody)
    requires Consistent(cs, ps) && k < |ps|
    requires b.categoryId.Some? ==> HasCategory(cs, b.categoryId.value)
    ensures Consistent(cs, ps[k := PatchProduct(ps[k], b)])
  {
    var ps' := ps[k := PatchProduct(ps[k], b)];
    forall q | q in ps' ensures HasCategory(cs, q.categoryId) && IsTrimmed(q.name) {
      var j :| 0 <= j < |ps'| && ps'[j] == q;
      assert ps[j] in ps;
    }
  }

  /** Removing an unreferenced category keeps the invariant: no product is left dangling. */
  lemma DeleteCategoryConsistent(cs: seq<Category>, ps: seq<Product>, id: string)
    requires Consistent(cs, ps) && !IsReferenced(ps, id)
    ensures Consistent(WithoutCategory(cs, id), ps)
  {
    var cs' := WithoutCategory(cs, id);
    WithoutCategoryUnique(cs, id);
    forall p | p in ps ensures HasCategory(cs', p.categoryId) {
      var d :| d in cs && d.id == p.categoryId;
      assert d in cs';
    }
  }

  lemma WithoutCategoryUnique(cs: seq<Category>, id: string)
    requires UniqueCategoryIds(cs)
    ensures UniqueCategoryIds(WithoutCategory(cs, id))
  {
    var cs' := WithoutCategory(cs, id);
    if HasCategory(cs, id) {
      WithoutCategoryRemovesOne(cs, id);
      RemoveCategoryAtUnique(cs, FindCategory(cs, id).value);
    } else {
      FilterKeepsAll(cs, (c: Category) => c.id != id);
    }
  }

  lemma RemoveCategoryAtUnique(cs: seq<Category>, k: nat)
    requires UniqueCategoryIds(cs) && k < |cs|
    ensures UniqueCategoryIds(cs[..k] + cs[k + 1..])
  {
    var rest := cs[..k] + cs[k + 1..];
    forall i, j | 0 <= i < j < |rest| ensures rest[i].id != rest[j].id {
      var i' := if i < k then i else i + 1;
      var j' := if j < k then j else j + 1;
      assert rest[i] == cs[i'] && rest[j] == cs[j'];
    }
  }

  /** Removing a product keeps the invariant. */
  lemma DeleteProductConsistent(cs: seq<Category>, ps: seq<Product>, id: string)
    requires Consistent(cs, ps)
    ensures Consistent(cs, WithoutProduct(ps, id))
  {
    WithoutProductUnique(ps, id);
  }

  lemma WithoutProductUnique(ps: seq<Product>, id: string)
    requires UniqueProductIds(ps)
    ensures UniqueProductIds(WithoutProduct(ps, id))
  {
    var ps' := WithoutProduct(ps, id);
    if HasProduct(ps, id) {
      WithoutProductRemovesOne(ps, id);
      RemoveProductAtUnique(ps, FindProduct(ps, id).value);
    } else {
      FilterKeepsAll(ps, (p: Product) => p.id != id);
    }
  }

  lemma RemoveProductAtUnique(ps: seq<Product>, k: nat)
    requires UniqueProductIds(ps) && k < |ps|
    ensures UniqueProductIds(ps[..k] + ps[k + 1..])
  {
    var rest := ps[..k] + ps[k + 1..];
    forall i, j | 0 <= i < j < |rest| ensures rest[i].id != rest[j].id {
      var i' := if i < k then i else i + 1;
      var j' := if j < k then j else j + 1;
      assert rest[i] == ps[i'] && rest[j] == ps[j'];
    }
  }

  // ----- the seed data the server starts with -----

  predicate Distinct(ids: seq<string>) {
    forall i, j :: 0 <= i < j < |ids| ==> ids[i] != ids[j]
  }

  // The texts of the seed records, one constant each.
  const CategoryName0: string := "Гитары"
  const CategoryText0: string := "Электро, акустические и бас-гитары"
  const CategoryName1: string := "Клавишные"
  const CategoryText1: string := "Пианино, синтезаторы, MIDI-клавиатуры"
  const CategoryName2: string := "Ударные"
  const CategoryText2: string := "Барабанные установки и перкуссия"
  const CategoryName3: string := "Звук"
  const CategoryText3: string := "Микрофоны, наушники, аудиоинтерфейсы"
  const CategoryName4: string := "Усилители"
  const CategoryText4: string := "Гитарные и басовые усилители"
  const CategoryName5: string := "Струнные"
  const CategoryText5: string := "Скрипки, альты, виолончели, укулеле"
  const CategoryName6: string := "Духовые"
  const CategoryText6: string := "Трубы, саксофоны, флейты"
  const ProductName0: string := "Электрогитара Fender Stratocaster"
  const ProductText0: string := "Классическая электрогитара"
  const ProductImage0: string := "/images/electric-guitar.jpg"
  const ProductName1: string := "Цифровое пианино Yamaha P-125"
  const ProductText1: string := "88 клавиш"
  const ProductImage1: string := "/images/electric-piano.jpg"
  const ProductName2: string := "Акустическая барабанная установка Tama"
  const ProductText2: string := "5 предметов, комплект тарелок в упаковке"
  const ProductImage2: string := "/images/baraban.jpg"
  const ProductName3: string := "Синтезатор Korg Minilogue XD"
  const ProductText3: string := "Аналоговый полифонический синтезатор, 4 голоса"
  const ProductImage3: string := "/images/synthesizer.jpg"
  const ProductName4: string := "Бас-гитара Ibanez SR300E"
  const ProductText4: string := "4-струнный бас, активная электроника, легкий корпус"
  const ProductImage4: string := "/images/bas-guitar.jpg"
  const ProductName5: string := "Микрофон Shure SM58"
  const ProductText5: string := "Динамический вокальный микрофон"
  const ProductImage5: string := "/images/microphone.jpg"
  const ProductName6: string := "Наушники Audio-Technica ATH-M50x"
  const ProductText6: string := "Студийные мониторные наушники"
  const ProductImage6: string := "/images/headphones.jpg"
  const ProductName7: string := "Усилитель для гитары Fender Champion 40"
  const ProductText7: string := "40 Вт, встроенные эффекты, Bluetooth"
  const ProductImage7: string := "/images/guitar-amplifier.jpg"
  const ProductName8: string := "Скрипка Stentor Student II 4/4"
  const ProductText8: string := "Полноразмерная скрипка для обучения, еловая дека, комплект со смычком и канифолью"
  const ProductImage8: string := "/images/violin.jpg"
  const ProductName9: string := "Труба Bach TR300H2"
  const ProductText9: string := "Ученическая труба, мундштук 7C в комплекте"
  const ProductImage9: string := "/images/flute.jpg"

  /** The seven categories the store starts with; their ids come from the id generator. */
  function SeedCategories(ids: seq<string>): (r: seq<Category>)
    requires |ids| == 7
    ensures |r| == 7
    ensures forall j :: 0 <= j < 7 ==> r[j].id == ids[j]
  {
    [ Category(ids[0], CategoryName0, CategoryText0),
      Category(ids[1], CategoryName1, CategoryText1),
      Category(ids[2], CategoryName2, CategoryText2),
      Category(ids[3], CategoryName3, CategoryText3),
      Category(ids[4], CategoryName4, CategoryText4),
      Category(ids[5], CategoryName5, CategoryText5),
      Category(ids[6], CategoryName6, CategoryText6) ]
  }

  /** The ten products the store starts with, each filed under one of the seed categories. */
  function SeedProducts(cids: seq<string>, pids: seq<string>): (r: seq<Product>)
    requires |cids| == 7 && |pids| == 10
    ensures |r| == 10
    ensures forall j :: 0 <= j < 10 ==> r[j].id == pids[j]
    ensures forall j :: 0 <= j < 10 ==> r[j].categoryId == cids[SeedCategoryIndex()[j]]
  {
    [ Product(pids[0], ProductName0, cids[0], ProductText0, 89990.0, 8, 4.9, ProductImage0),
      Product(pids[1], ProductName1, cids[1], ProductText1, 65000.0, 5, 4.8, ProductImage1),
      Product(pids[2], ProductName2, cids[2], ProductText2, 120000.0, 3, 4.7, ProductImage2),
      Product(pids[3], ProductName3, cids[1], ProductText3, 78500.0, 6, 4.9, ProductImage3),
      Product(pids[4], ProductName4, cids[0], ProductText4, 42000.0, 12, 4.6, ProductImage4),
      Product(pids[5], ProductName5, cids[3], ProductText5, 9500.0, 25, 5.0, ProductImage5),
      Product(pids[6], ProductName6, cids[3], ProductText6, 14500.0, 30, 4.8, ProductImage6),
      Product(pids[7], ProductName7, cids[4], ProductText7, 28000.0, 10, 4.7, ProductImage7),
      Product(pids[8], ProductName8, cids[5], ProductText8, 24500.0, 6, 4.4, ProductImage8),
      Product(pids[9], ProductName9, cids[6], ProductText9, 30900.0, 4, 4.9, ProductImage9) ]
  }

  /** For each seed product, the index of the seed category it is filed under. */
  function SeedCategoryIndex(): seq<nat> {
    [0, 1, 2, 1, 0, 3, 3, 4, 5, 6]
  }

  /** The seed data satisfies the invariant once the generated ids are distinct. */
  lemma SeedConsistent(cids: seq<string>, pids: seq<string>)
    requires |cids| == 7 && |pids| == 10 && Distinct(cids) && Distinct(pids)
    ensures Consistent(SeedCategories(cids), SeedProducts(cids, pids))
  {
    var cs, ps := SeedCategories(cids), SeedProducts(cids, pids);
    forall i, j | 0 <= i < j < |cs| ensures cs[i].id != cs[j].id {
      assert cs[i].id == cids[i] && cs[j].id == cids[j];
    }
    forall i, j | 0 <= i < j < |ps| ensures ps[i].id != ps[j].id {
      assert ps[i].id == pids[i] && ps[j].id == pids[j];
    }
    SeedReferencesResolve(cids, pids);
    SeedCategoriesTrimmed(cids);
    SeedProductsTrimmed(cids, pids);
  }

  lemma SeedReferencesResolve(cids: seq<string>, pids: seq<string>)
    requires |cids| == 7 && |pids| == 10
    ensures ReferencesResolve(SeedCategories(cids), SeedProducts(cids, pids))
  {
    var cs, ps := SeedCategories(cids), SeedProducts(cids, pids);
    forall j | 0 <= j < 10 ensures HasCategory(cs, ps[j].categoryId) {
      var k := SeedCategoryIndex()[j];
      assert cs[k] in cs && cs[k].id == ps[j].categoryId;
    }
  }

  lemma SeedCategoriesTrimmed(cids: seq<string>)
    requires |cids| == 7
    ensures forall c | c in SeedCategories(cids) :: IsTrimmed(c.name) && IsTrimmed(c.description)
  {
    var cs := SeedCategories(cids);
    SeedCategoryNamesTrimmed();
    SeedCategoryTextsTrimmed();
    assert forall j :: 0 <= j < 7 ==> cs[j].name == CategoryNames()[j] && cs[j].description == CategoryTexts()[j];
  }

  function CategoryNames(): seq<string> {
    [CategoryName0, CategoryName1, CategoryName2, CategoryName3, CategoryName4, CategoryName5, CategoryName6]
  }

  function CategoryTexts(): seq<string> {
    [CategoryText0, CategoryText1, CategoryText2, CategoryText3, CategoryText4, CategoryText5, CategoryText6]
  }

  lemma SeedCategoryNamesTrimmed()
    ensures forall j :: 0 <= j < 7 ==> IsTrimmed(CategoryNames()[j])
  {
  }

  lemma SeedCategoryTextsTrimmed()
    ensures forall j :: 0 <= j < 7 ==> IsTrimmed(CategoryTexts()[j])
  {
  }

  lemma SeedProductsTrimmed(cids: seq<string>, pids: seq<string>)
    requires |cids| == 7 && |pids| == 10
    ensures forall p | p in SeedProducts(cids, pids) :: IsTrimmed(p.name)
  {
    var ps := SeedProducts(cids, pids);
    SeedProductNamesTrimmed();
    assert forall j :: 0 <= j < 10 ==> ps[j].name == ProductNames()[j];
  }

  function ProductNames(): seq<string> {
    [ ProductName0, ProductName1, ProductName2, ProductName3, ProductName4,
      ProductName5, ProductName6, ProductName7, ProductName8, ProductName9 ]
  }

  lemma SeedProductNamesTrimmed()
    ensures forall j :: 0 <= j < 10 ==> IsTrimmed(ProductNames()[j])
  {
  }
}
