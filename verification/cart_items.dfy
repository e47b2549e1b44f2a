/** The item list of the singleton cart: an ordered sequence of lines
    {product, quantity}, and the list operations the cart route handlers
    perform on it (find the first line of a product, merge-or-append,
    set or drop one line, filter out a product). Beside the positional
    view, `QuantityOf` gives the bag view — how much of each product the
    cart holds — against which merge, update and filter are
    characterised. */
module CartItems {

  /** A product's identity, compared by its string form. */
  type ProductId = string

  /** A catalogue entry, reduced to the fields the cart reads.
      Prices are integer cents. */
  datatype Product = Product(price: int, stock: int)

  /** The product store, as seen by one request. */
  type Catalogue = map<ProductId, Product>

  /** One cart line: a product reference and a quantity. */
  datatype Line = Line(product: ProductId, quantity: int)

  /** Some line of `items` refers to product `id`. */
  predicate HasLine(items: seq<Line>, id: ProductId)
  {
    exists k :: 0 <= k < |items| && items[k].product == id
  }

  /** The invariant the handlers aim at: at most one line per product. */
  predicate NoDuplicates(items: seq<Line>)
  {
    forall i, j :: 0 <= i < j < |items| ==> items[i].product != items[j].product
  }

  /** Index of the first line for `id`, or -1 when there is none
      (the `findIndex` / `find` searches of the handlers). */
  function IndexOf(items: seq<Line>, id: ProductId): (r: int)
    ensures -1 <= r < |items|
    ensures r == -1 <==> !HasLine(items, id)
    ensures 0 <= r ==> items[r].product == id
    ensures 0 <= r ==> forall k :: 0 <= k < r ==> items[k].product != id
  {
    if items == [] then -1
    else if items[0].product == id then 0
    else
      var j := IndexOf(items[1..], id);
      if j == -1 then
        assert forall k :: 1 <= k < |items| ==> items[k] == items[1..][k - 1];
        -1
      else
        j + 1
  }

  /** The items after adding `q` of product `id`: the first line for `id`
      grows by `q`, or, when there is none, a new line `{id, q}` is
      appended. */
  function Merged(items: seq<Line>, id: ProductId, q: int): (r: seq<Line>)
    ensures |r| == if HasLine(items, id) then |items| else |items| + 1
    ensures forall k :: 0 <= k < |items| && k != IndexOf(items, id) ==> r[k] == items[k]
    ensures !HasLine(items, id) ==> r == items + [Line(id, q)]
    ensures HasLine(items, id) ==>
      var i := IndexOf(items, id); r[i].product == id && r[i].quantity == items[i].quantity + q
    ensures HasLine(r, id)
  {
    var i := IndexOf(items, id);
    if i >= 0 then
      var r := items[i := items[i].(quantity := items[i].quantity + q)];
      assert r[i].product == id;
      r
    else
      assert (items + [Line(id, q)])[|items|].product == id;
      items + [Line(id, q)]
  }

  /** The items without the line at index `i` (an in-place splice). */
  function RemoveAt(items: seq<Line>, i: nat): (r: seq<Line>)
    requires i < |items|
    ensures |r| == |items| - 1
    ensures forall k :: 0 <= k < i ==> r[k] == items[k]
    ensures forall k :: i < k < |items| ==> r[k - 1] == items[k]
  {
    items[..i] + items[i + 1..]
  }

  /** The items after setting the quantity of product `id` to `q`: the
      first line for `id` is dropped when `q <= 0`, otherwise its quantity
      becomes `q`. */
  function Updated(items: seq<Line>, id: ProductId, q: int): (r: seq<Line>)
    requires HasLine(items, id)
    ensures |r| == if q <= 0 then |items| - 1 else |items|
    ensures q > 0 ==> r[IndexOf(items, id)] == Line(id, q)
    ensures forall k :: 0 <= k < |items| && k != IndexOf(items, id) ==>
      items[k] == r[if q <= 0 && k > IndexOf(items, id) then k - 1 else k]
  {
    var i := IndexOf(items, id);
    if q <= 0 then RemoveAt(items, i)
    else
      items[i := items[i].(quantity := q)]
  }

  /** The items with every line for `id` filtered out, the others kept in
      order. */
  function Without(items: seq<Line>, id: ProductId): (r: seq<Line>)
    ensures |r| <= |items|
    ensures !HasLine(r, id)
    ensures forall l :: l in r <==> l in items && l.product != id
  {
    if items == [] then []
    else
      var rest := Without(items[1..], id);
      assert forall l :: l in items <==> l == items[0] || l in items[1..];
      if items[0].product == id then rest else [items[0]] + rest
  }

  /** How much of `pid` one line contributes. */
  function Share(l: Line, pid: ProductId): int
  {
    if l.product == pid then l.quantity else 0
  }

  /** Bag view: the total quantity of `pid` over all lines. */
  function QuantityOf(items: seq<Line>, pid: ProductId): int
  {
    if items == [] then 0 else Share(items[0], pid) + QuantityOf(items[1..], pid)
  }

  lemma {:induction false} QuantityOfAppend(a: seq<Line>, b: seq<Line>, pid: ProductId)
    ensures QuantityOf(a + b, pid) == QuantityOf(a, pid) + QuantityOf(b, pid)
  {
    if a == [] {
      assert a + b == b;
    } else {
      assert (a + b)[1..] == a[1..] + b;
      QuantityOfAppend(a[1..], b, pid);
    }
  }

  lemma {:induction false} QuantityOfSet(items: seq<Line>, i: nat, l: Line, pid: ProductId)
    requires i < |items|
    ensures QuantityOf(items[i := l], pid) == QuantityOf(items, pid) - Share(items[i], pid) + Share(l, pid)
  {
    if i == 0 {
      assert items[i := l][1..] == items[1..];
    } else {
      assert items[i := l][1..] == items[1..][i - 1 := l];
      QuantityOfSet(items[1..], i - 1, l, pid);
    }
  }

  /** A product with no line has quantity 0 in the bag view. */
  lemma {:induction false} QuantityOfAbsent(items: seq<Line>, pid: ProductId)
    requires !HasLine(items, pid)
    ensures QuantityOf(items, pid) == 0
  {
    if items != [] {
      assert forall k :: 0 <= k < |items| - 1 ==> items[1..][k] == items[k + 1];
      QuantityOfAbsent(items[1..], pid);
    }
  }

  /** Adding `q` of `id` raises the quantity of `id` by `q` and leaves
      every other product's quantity alone. */
  lemma {:induction false} MergedQuantity(items: seq<Line>, id: ProductId, q: int, pid: ProductId)
    ensures QuantityOf(Merged(items, id, q), pid) == QuantityOf(items, pid) + (if pid == id then q else 0)
  {
    var i := IndexOf(items, id);
    if i >= 0 {
      QuantityOfSet(items, i, items[i].(quantity := items[i].quantity + q), pid);
    } else {
      QuantityOfAppend(items, [Line(id, q)], pid);
      assert [Line(id, q)][1..] == [];
    }
  }

  /** Adding never creates a second line for a product. */
  lemma MergedKeepsNoDuplicates(items: seq<Line>, id: ProductId, q: int)
    requires NoDuplicates(items)
    ensures NoDuplicates(Merged(items, id, q))
  {
  }

  /** Two adds of one product amount to a single add of the summed
      quantity: one line, quantity q1 + q2. */
  lemma MergeTwice(items: seq<Line>, id: ProductId, q1: int, q2: int)
    ensures Merged(Merged(items, id, q1), id, q2) == Merged(items, id, q1 + q2)
  {
  }

  lemma {:induction false} WithoutAppend(a: seq<Line>, b: seq<Line>, id: ProductId)
    ensures Without(a + b, id) == Without(a, id) + Without(b, id)
  {
    if a == [] {
      assert a + b == b;
    } else {
      assert (a + b)[1..] == a[1..] + b;
      WithoutAppend(a[1..], b, id);
    }
  }

  /** Filtering out a product that has no line changes nothing. */
  lemma {:induction false} WithoutAbsent(items: seq<Line>, id: ProductId)
    requires !HasLine(items, id)
    ensures Without(items, id) == items
  {
    if items != [] {
      assert forall k :: 0 <= k < |items| - 1 ==> items[1..][k] == items[k + 1];
      WithoutAbsent(items[1..], id);
      assert [items[0]] + items[1..] == items;
    }
  }

  /** Filtering out a product twice is filtering it out once. */
  lemma WithoutIdempotent(items: seq<Line>, id: ProductId)
    ensures Without(Without(items, id), id) == Without(items, id)
  {
    WithoutAbsent(Without(items, id), id);
  }

  /** Filtering out `id` zeroes its quantity and keeps every other
      product's quantity. */
  lemma {:induction false} WithoutQuantity(items: seq<Line>, id: ProductId, pid: ProductId)
    ensures QuantityOf(Without(items, id), pid) == if pid == id then 0 else QuantityOf(items, pid)
  {
    if items != [] {
      WithoutQuantity(items[1..], id, pid);
      var rest := Without(items[1..], id);
      if items[0].product != id {
        assert ([items[0]] + rest)[1..] == rest;
      }
    }
  }

  lemma NoDuplicatesCons(l: Line, s: seq<Line>)
    requires NoDuplicates(s)
    requires forall m :: m in s ==> m.product != l.product
    ensures NoDuplicates([l] + s)
  {
  }

  /** Filtering keeps the no-duplicates invariant. */
  lemma {:induction false} WithoutKeepsNoDuplicates(items: seq<Line>, id: ProductId)
    requires NoDuplicates(items)
    ensures NoDuplicates(Without(items, id))
  {
    if items != [] {
      var tail := items[1..];
      assert NoDuplicates(tail) by {
        forall i, j | 0 <= i < j < |tail| ensures tail[i].product != tail[j].product {
          assert tail[i] == items[i + 1] && tail[j] == items[j + 1];
        }
      }
      WithoutKeepsNoDuplicates(tail, id);
      if items[0].product != id {
        forall m | m in Without(tail, id) ensures m.product != items[0].product {
          var k :| 0 <= k < |tail| && tail[k] == m;
          assert items[k + 1] == m;
        }
        NoDuplicatesCons(items[0], Without(tail, id));
      }
    }
  }

  /** When the invariant holds, splicing out the line found for `id` is
      the same as filtering out `id`: an update to quantity <= 0 and a
      remove leave the same items. */
  lemma RemoveAtIsWithout(items: seq<Line>, id: ProductId)
    requires NoDuplicates(items)
    requires HasLine(items, id)
    ensures RemoveAt(items, IndexOf(items, id)) == Without(items, id)
  {
    var i := IndexOf(items, id);
    var before, after := items[..i], items[i + 1..];
    assert !HasLine(before, id) by {
      forall k | 0 <= k < |before| ensures before[k].product != id {
        assert before[k] == items[k];
      }
    }
    assert !HasLine(after, id) by {
      forall k | 0 <= k < |after| ensures after[k].product != id {
        assert after[k] == items[i + 1 + k];
      }
    }
    WithoutAbsent(before, id);
    WithoutAbsent(after, id);
    WithoutSplit(items, i, id);
  }

  /** Filtering distributes over the three parts around index `i`. */
  lemma WithoutSplit(items: seq<Line>, i: nat, id: ProductId)
    requires i < |items|
    requires items[i].product == id
    ensures Without(items, id) == Without(items[..i], id) + Without(items[i + 1..], id)
  {
    var before, after := items[..i], items[i + 1..];
    assert items == before + ([items[i]] + after);
    WithoutAppend(before, [items[i]] + after, id);
    assert ([items[i]] + after)[1..] == after;
  }

  /** With no duplicates, the quantity of a product with a line is the
      quantity on that line. */
  lemma QuantityOfUnique(items: seq<Line>, id: ProductId)
    requires NoDuplicates(items)
    requires HasLine(items, id)
    ensures QuantityOf(items, id) == items[IndexOf(items, id)].quantity
  {
    var i := IndexOf(items, id);
    var before, after := items[..i], items[i + 1..];
    assert items == before + [items[i]] + after;
    QuantityOfAppend(before + [items[i]], after, id);
    QuantityOfAppend(before, [items[i]], id);
    RemoveAtIsWithout(items, id);
    WithoutQuantity(items, id, id);
    QuantityOfAppend(before, after, id);
    assert [items[i]][1..] == [];
  }

  /** Setting the quantity of `id` to `q` makes its quantity `q`, or 0
      when `q <= 0`, and leaves every other product's quantity alone. */
  lemma UpdatedQuantity(items: seq<Line>, id: ProductId, q: int, pid: ProductId)
    requires NoDuplicates(items)
    requires HasLine(items, id)
    ensures QuantityOf(Updated(items, id, q), pid) ==
      if pid != id then QuantityOf(items, pid) else if q <= 0 then 0 else q
  {
    var i := IndexOf(items, id);
    if q <= 0 {
      RemoveAtIsWithout(items, id);
      WithoutQuantity(items, id, pid);
    } else {
      QuantityOfSet(items, i, items[i].(quantity := q), pid);
      if pid == id {
        QuantityOfUnique(items, id);
      }
    }
  }

  /** Updating keeps the no-duplicates invariant. */
  lemma UpdatedKeepsNoDuplicates(items: seq<Line>, id: ProductId, q: int)
    requires NoDuplicates(items)
    requires HasLine(items, id)
    ensures NoDuplicates(Updated(items, id, q))
  {
  }

  /** Every line has a positive quantity (the shape a cart is meant to
      have; the handlers do not enforce it on add). */
  predicate AllPositive(items: seq<Line>)
  {
    forall k :: 0 <= k < |items| ==> items[k].quantity > 0
  }

  /** Adding a positive quantity keeps every quantity positive. */
  lemma MergedKeepsPositive(items: seq<Line>, id: ProductId, q: int)
    requires AllPositive(items) && q > 0
    ensures AllPositive(Merged(items, id, q))
  {
  }

  /** An update never leaves a line with quantity <= 0: such a quantity
      drops the line instead. */
  lemma UpdatedKeepsPositive(items: seq<Line>, id: ProductId, q: int)
    requires AllPositive(items) && HasLine(items, id)
    ensures AllPositive(Updated(items, id, q))
  {
  }
}
