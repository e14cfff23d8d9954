/**
 * The metrics of GET /api/categories/{id}/with-products, computed over the
 * products listed under one category.
 */
module Aggregation {
  import opened Catalog

  datatype Metrics = Metrics(
    totalProducts: nat,
    avgRating: real,
    totalStock: int,
    minPrice: real,
    maxPrice: real)

  /** `reduce((sum, p) => sum + p.stock, 0)`, folding from the left. */
  function SumStock(ps: seq<Product>): int {
    if ps == [] then 0 else SumStock(ps[..|ps| - 1]) + ps[|ps| - 1].stock
  }

  /** `reduce((sum, p) => sum + p.rating, 0)`, folding from the left. */
  function SumRating(ps: seq<Product>): real {
    if ps == [] then 0.0 else SumRating(ps[..|ps| - 1]) + ps[|ps| - 1].rating
  }

  /** The stock total of two lists run together is the sum of their totals, whatever the split. */
  lemma {:induction false} SumStockConcat(a: seq<Product>, b: seq<Product>)
    ensures SumStock(a + b) == SumStock(a) + SumStock(b)
  {
    if b == [] {
      assert a + b == a;
    } else {
      var ab := a + b;
      assert ab[..|ab| - 1] == a + b[..|b| - 1] && ab[|ab| - 1] == b[|b| - 1];
      SumStockConcat(a, b[..|b| - 1]);
    }
  }

  /** The rating total of two lists run together is the sum of their totals, whatever the split. */
  lemma {:induction false} SumRatingConcat(a: seq<Product>, b: seq<Product>)
    ensures SumRating(a + b) == SumRating(a) + SumRating(b)
  {
    if b == [] {
      assert a + b == a;
    } else {
      var ab := a + b;
      assert ab[..|ab| - 1] == a + b[..|b| - 1] && ab[|ab| - 1] == b[|b| - 1];
      SumRatingConcat(a, b[..|b| - 1]);
    }
  }

  /** `Math.min(...ps.map(p => p.price))` for a non-empty list: a lower bound that some product attains. */
  function MinPrice(ps: seq<Product>): (m: real)
    requires ps != []
    ensures forall i :: 0 <= i < |ps| ==> m <= ps[i].price
    ensures exists i :: 0 <= i < |ps| && ps[i].price == m
  {
    if |ps| == 1 then ps[0].price
    else
      var rest := MinPrice(ps[1..]);
      assert forall i :: 1 <= i < |ps| ==> ps[i] == ps[1..][i - 1];
      if ps[0].price <= rest then ps[0].price else rest
  }

  /** `Math.max(...ps.map(p => p.price))` for a non-empty list: an upper bound that some product attains. */
  function MaxPrice(ps: seq<Product>): (m: real)
    requires ps != []
    ensures forall i :: 0 <= i < |ps| ==> ps[i].price <= m
    ensures exists i :: 0 <= i < |ps| && ps[i].price == m
  {
    if |ps| == 1 then ps[0].price
    else
      var rest := MaxPrice(ps[1..]);
      assert forall i :: 1 <= i < |ps| ==> ps[i] == ps[1..][i - 1];
      if ps[0].price >= rest then ps[0].price else rest
  }

  /**
   * The metrics object. For an empty list every figure is 0; otherwise the mean
   * rating is the exact quotient (the two-decimal rounding is not modelled).
   */
  function Aggregate(ps: seq<Product>): (m: Metrics)
    ensures m.totalProducts == |ps|
    ensures m.totalStock == SumStock(ps)
    ensures ps != [] ==> m.avgRating * (|ps| as real) == SumRating(ps)
    ensures ps == [] ==> m == Metrics(0, 0.0, 0, 0.0, 0.0)
    ensures ps != [] ==> forall i :: 0 <= i < |ps| ==> m.minPrice <= ps[i].price <= m.maxPrice
    ensures ps != [] ==> exists i :: 0 <= i < |ps| && ps[i].price == m.minPrice
    ensures ps != [] ==> exists i :: 0 <= i < |ps| && ps[i].price == m.maxPrice
  {
    if ps == [] then Metrics(0, 0.0, 0, 0.0, 0.0)
    else Metrics(|ps|, SumRating(ps) / (|ps| as real), SumStock(ps), MinPrice(ps), MaxPrice(ps))
  }

  /** If every rating lies in [lo, hi], so does their sum divided by the count... */
  lemma {:induction false} SumRatingBounds(ps: seq<Product>, lo: real, hi: real)
    requires forall i :: 0 <= i < |ps| ==> lo <= ps[i].rating <= hi
    ensures (|ps| as real) * lo <= SumRating(ps) <= (|ps| as real) * hi
  {
    if ps != [] {
      var init := ps[..|ps| - 1];
      SumRatingBounds(init, lo, hi);
      assert (|ps| as real) * lo == (|init| as real) * lo + lo;
      assert (|ps| as real) * hi == (|init| as real) * hi + hi;
    }
  }

  /** ...so the mean rating stays within the ratings' range (for instance [0, 5]). */
  lemma AvgRatingBounds(ps: seq<Product>, lo: real, hi: real)
    requires forall i :: 0 <= i < |ps| ==> lo <= ps[i].rating <= hi
    ensures ps != [] ==> lo <= Aggregate(ps).avgRating <= hi
  {
    if ps != [] {
      SumRatingBounds(ps, lo, hi);
      QuotientBounds(SumRating(ps), |ps| as real, lo, hi);
    }
  }

  lemma QuotientBounds(s: real, n: real, lo: real, hi: real)
    requires n > 0.0 && n * lo <= s <= n * hi
    ensures lo <= s / n <= hi
  {
    var q := s / n;
    assert q * n == s;
    assert (q - lo) * n == s - lo * n >= 0.0;
    assert (hi - q) * n == hi * n - s >= 0.0;
  }

  /** A product's price joins the minimum of the prices before it. */
  lemma MinPriceAppend(ps: seq<Product>, p: Product)
    requires ps != []
    ensures MinPrice(ps + [p]) == Min(MinPrice(ps), p.price)
  {
    var q := ps + [p];
    assert forall i :: 0 <= i < |ps| ==> q[i] == ps[i];
    assert q[|ps|] == p;
    var i :| 0 <= i < |ps| && ps[i].price == MinPrice(ps);
    assert q[i] == ps[i];
  }

  /** A product's price joins the maximum of the prices before it. */
  lemma MaxPriceAppend(ps: seq<Product>, p: Product)
    requires ps != []
    ensures MaxPrice(ps + [p]) == Max(MaxPrice(ps), p.price)
  {
    var q := ps + [p];
    assert forall i :: 0 <= i < |ps| ==> q[i] == ps[i];
    assert q[|ps|] == p;
    var i :| 0 <= i < |ps| && ps[i].price == MaxPrice(ps);
    assert q[i] == ps[i];
  }

  /**
   * Adding a product to a category: one more product, its stock added to the total,
   * its rating added to the rating total behind the mean, and the price range
   * widened to include its price.
   */
  lemma AggregateAppend(ps: seq<Product>, p: Product)
    ensures Aggregate(ps + [p]).totalProducts == Aggregate(ps).totalProducts + 1
    ensures Aggregate(ps + [p]).totalStock == Aggregate(ps).totalStock + p.stock
    ensures SumRating(ps + [p]) == SumRating(ps) + p.rating
    ensures ps == [] ==> Aggregate(ps + [p]).minPrice == p.price == Aggregate(ps + [p]).maxPrice
    ensures ps != [] ==> Aggregate(ps + [p]).minPrice == Min(Aggregate(ps).minPrice, p.price)
    ensures ps != [] ==> Aggregate(ps + [p]).maxPrice == Max(Aggregate(ps).maxPrice, p.price)
  {
    var q := ps + [p];
    assert q[..|q| - 1] == ps;
    assert SumStock(q) == SumStock(ps) + p.stock;
    assert SumRating(q) == SumRating(ps) + p.rating;
    if ps != [] {
      MinPriceAppend(ps, p);
      MaxPriceAppend(ps, p);
    } else {
      assert q == [p] && q[..0] == [];
    }
  }

  function Min(a: real, b: real): real { if a <= b then a else b }

  function Max(a: real, b: real): real { if a >= b then a else b }
}
