/**
 * `PUT /api/products/reorder`: the admin sends the product ids in their new order
 * and each listed product gets its position as `orderIndex`.
 */
module Catalog {
  import opened Wrappers

  datatype Product = Product(title: string, price: string, image: string, description: string, orderIndex: int)

  /** The `Product` table, keyed by id. */
  type Products = map<int, Product>

  /** `Product.update({orderIndex: i}, {where: {id}})`: a missing id updates nothing. */
  function Assign(p: Products, id: int, i: int): (r: Products)
    ensures r.Keys == p.Keys
  {
    if id in p then p[id := p[id].(orderIndex := i)] else p
  }

  /** The table after the loop has run over all of `order`, one position after another. */
  function Reordered(p: Products, order: seq<int>): (r: Products)
    ensures r.Keys == p.Keys
  {
    if order == [] then p
    else Assign(Reordered(p, order[..|order| - 1]), order[|order| - 1], |order| - 1)
  }

  /** The last position of `x` in `s`. */
  function LastIndexOf(s: seq<int>, x: int): (i: nat)
    requires x in s
    ensures i < |s| && s[i] == x
    ensures forall j :: i < j < |s| ==> s[j] != x
  {
    if s[|s| - 1] == x then |s| - 1 else LastIndexOf(s[..|s| - 1], x)
  }

  /**
   * After reordering, a listed product has the last position it is listed at as its
   * `orderIndex`, and its other fields unchanged; an unlisted product is untouched.
   */
  lemma {:induction false} ReorderedAt(p: Products, order: seq<int>, id: int)
    requires id in p
    ensures id in order ==> Reordered(p, order)[id] == p[id].(orderIndex := LastIndexOf(order, id))
    ensures id !in order ==> Reordered(p, order)[id] == p[id]
  {
    if order != [] {
      var init := order[..|order| - 1];
      ReorderedAt(p, init, id);
      assert order == init + [order[|order| - 1]];
      if id in init && order[|order| - 1] != id {
        assert LastIndexOf(order, id) == LastIndexOf(init, id);
      }
    }
  }

  class Catalog {
    var products: Products

    constructor (initial: Products)
      ensures products == initial
    {
      products := initial;
    }

    /** `false` (400) when `order` is missing or not an array; then nothing is updated. */
    method Reorder(order: Option<seq<int>>) returns (ok: bool)
      modifies this
      ensures ok <==> order.Some?
      ensures products == if ok then Reordered(old(products), order.value) else old(products)
    {
      if order.None? {
        return false;
      }
      var ids := order.value;
      for i := 0 to |ids|
        invariant products == Reordered(old(products), ids[..i])
      {
        assert ids[..i + 1][..i] == ids[..i];
        if ids[i] in products {
          products := products[ids[i] := products[ids[i]].(orderIndex := i)];
        }
      }
      assert ids[..|ids|] == ids;
      ok := true;
    }
  }
}
