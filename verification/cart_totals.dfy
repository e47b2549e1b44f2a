/** The cart total. The handlers recompute it with a left fold
    (`reduce`) over the items, in two different ways:
    - after an add, every line's quantity is multiplied by the price of
      the product just added (`FlatTotal`);
    - after an update or a remove, each line's quantity is multiplied by
      the current price of that line's own product, and the fold fails
      when a line's product is no longer in the catalogue (`PricedTotal`).
    `QuantitySum` and `Worth` are the reference sums these folds are
    proved against. */
module CartTotals {
  import opened CartItems

  datatype Option<T> = None | Some(value: T)

  /** Sum of all line quantities. */
  function QuantitySum(items: seq<Line>): int
  {
    if items == [] then 0 else items[0].quantity + QuantitySum(items[1..])
  }

  /** Every line's product is in the catalogue. */
  predicate AllPriced(items: seq<Line>, catalogue: Catalogue)
  {
    forall k :: 0 <= k < |items| ==> items[k].product in catalogue
  }

  /** Reference sum: quantity times the line's own current price, over
      all lines. */
  function Worth(items: seq<Line>, catalogue: Catalogue): int
    requires AllPriced(items, catalogue)
  {
    if items == [] then 0
    else items[0].quantity * catalogue[items[0].product].price + Worth(items[1..], catalogue)
  }

  /** The fold after an add: left to right, each line adds its quantity
      times `price`, the price of the product being added. The result is
      the number of units in the cart times that price. */
  function FlatTotal(items: seq<Line>, price: int): (r: int)
    ensures r == QuantitySum(items) * price
  {
    if items == [] then 0
    else
      var front, last := items[..|items| - 1], items[|items| - 1];
      assert items == front + [last];
      QuantitySumSnoc(front, last);
      assert (QuantitySum(front) + last.quantity) * price
          == QuantitySum(front) * price + last.quantity * price;
      FlatTotal(front, price) + last.quantity * price
  }

  /** The fold after an update or a remove: left to right, each line adds
      its quantity times its own product's price; a line whose product is
      missing makes the whole fold fail. */
  function PricedTotal(items: seq<Line>, catalogue: Catalogue): (r: Option<int>)
    ensures r.Some? <==> AllPriced(items, catalogue)
  {
    if items == [] then Some(0)
    else
      var last := items[|items| - 1];
      var front := items[..|items| - 1];
      assert forall k :: 0 <= k < |front| ==> front[k] == items[k];
      match PricedTotal(front, catalogue)
      case None => None
      case Some(t) =>
        if last.product in catalogue then Some(t + last.quantity * catalogue[last.product].price)
        else None
  }

  lemma {:induction false} QuantitySumSnoc(items: seq<Line>, l: Line)
    ensures QuantitySum(items + [l]) == QuantitySum(items) + l.quantity
  {
    if items == [] {
      assert items + [l] == [l];
    } else {
      assert (items + [l])[1..] == items[1..] + [l];
      QuantitySumSnoc(items[1..], l);
    }
  }

  lemma {:induction false} WorthAppend(a: seq<Line>, b: seq<Line>, catalogue: Catalogue)
    requires AllPriced(a, catalogue) && AllPriced(b, catalogue)
    ensures AllPriced(a + b, catalogue)
    ensures Worth(a + b, catalogue) == Worth(a, catalogue) + Worth(b, catalogue)
  {
    if a == [] {
      assert a + b == b;
    } else {
      assert (a + b)[1..] == a[1..] + b;
      assert AllPriced(a[1..], catalogue) by {
        forall k | 0 <= k < |a| - 1 ensures a[1..][k].product in catalogue {
          assert a[1..][k] == a[k + 1];
        }
      }
      WorthAppend(a[1..], b, catalogue);
    }
  }

  /** The fold after update and remove computes the reference sum
      whenever it succeeds. */
  lemma {:induction false} PricedTotalIsWorth(items: seq<Line>, catalogue: Catalogue)
    requires AllPriced(items, catalogue)
    ensures PricedTotal(items, catalogue) == Some(Worth(items, catalogue))
  {
    if items != [] {
      var front, last := items[..|items| - 1], items[|items| - 1];
      assert items == front + [last];
      assert AllPriced(front, catalogue) by {
        forall k | 0 <= k < |front| ensures front[k].product in catalogue {
          assert front[k] == items[k];
        }
      }
      PricedTotalIsWorth(front, catalogue);
      WorthAppend(front, [last], catalogue);
      assert [last][1..] == [];
    }
  }

  /** Dropping line `i` lowers the reference sum by exactly that line's
      worth. */
  lemma WorthRemoveAt(items: seq<Line>, i: nat, catalogue: Catalogue)
    requires i < |items|
    requires AllPriced(items, catalogue)
    ensures AllPriced(RemoveAt(items, i), catalogue)
    ensures Worth(RemoveAt(items, i), catalogue) ==
      Worth(items, catalogue) - items[i].quantity * catalogue[items[i].product].price
  {
    var before, after := items[..i], items[i + 1..];
    assert items == before + ([items[i]] + after);
    assert AllPriced(before, catalogue) by {
      forall k | 0 <= k < |before| ensures before[k].product in catalogue {
        assert before[k] == items[k];
      }
    }
    assert AllPriced([items[i]] + after, catalogue) by {
      forall k | 0 <= k < |after| + 1 ensures ([items[i]] + after)[k].product in catalogue {
        assert ([items[i]] + after)[k] == items[i + k];
      }
    }
    assert AllPriced(after, catalogue) by {
      forall k | 0 <= k < |after| ensures after[k].product in catalogue {
        assert after[k] == items[i + 1 + k];
      }
    }
    WorthAppend(before, [items[i]] + after, catalogue);
    WorthAppend(before, after, catalogue);
    assert ([items[i]] + after)[1..] == after;
  }

  /** When every line is priced at the added product's price, the add
      total coincides with the reference sum. */
  lemma {:induction false} FlatTotalUnderOnePrice(items: seq<Line>, catalogue: Catalogue, price: int)
    requires AllPriced(items, catalogue)
    requires forall k :: 0 <= k < |items| ==> catalogue[items[k].product].price == price
    ensures FlatTotal(items, price) == Worth(items, catalogue)
  {
    if items != [] {
      var front, last := items[..|items| - 1], items[|items| - 1];
      assert items == front + [last];
      assert forall k :: 0 <= k < |front| ==> front[k] == items[k];
      FlatTotalUnderOnePrice(front, catalogue, price);
      WorthAppend(front, [last], catalogue);
      assert [last][1..] == [];
    }
  }

  /** The add total is not the priced total: one unit each of a 10-cent
      and a 20-cent product, with the 20-cent one added last, gives 40
      where the lines are worth 30. */
  lemma FlatTotalIgnoresLinePrices()
    ensures var catalogue := map["a" := Product(10, 1), "b" := Product(20, 1)];
            var items := [Line("a", 1), Line("b", 1)];
            FlatTotal(items, catalogue["b"].price) == 40 &&
            PricedTotal(items, catalogue) == Some(30)
  {
  }
}
