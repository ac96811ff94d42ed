/**
 * A customer's cart: an ordered sequence of lines, at most one per product,
 * and the specification of adding an item to it.
 */
module Cart {

  /** One cart line; `name` and `price` (integer cents) are copied from the
      product when the line is created. */
  datatype CartLine = CartLine(productId: int, name: string, price: int, quantity: int)

  predicate HasProduct(cart: seq<CartLine>, pid: int)
  {
    exists i :: 0 <= i < |cart| && cart[i].productId == pid
  }

  /** No product id occurs on two lines. */
  predicate DistinctProducts(cart: seq<CartLine>)
  {
    forall i, j :: 0 <= i < j < |cart| ==> cart[i].productId != cart[j].productId
  }

  /** Adding `line` to `cart`: the first line for the same product has its
      quantity increased by `line.quantity`; when there is none, `line` is
      appended at the end. */
  function MergeLine(cart: seq<CartLine>, line: CartLine): (r: seq<CartLine>)
    ensures |r| == if HasProduct(cart, line.productId) then |cart| else |cart| + 1
    ensures HasProduct(r, line.productId)
  {
    if cart == [] then
      assert [line][0].productId == line.productId;
      [line]
    else if cart[0].productId == line.productId then
      var r := [cart[0].(quantity := cart[0].quantity + line.quantity)] + cart[1..];
      assert r[0].productId == line.productId;
      r
    else
      var r := [cart[0]] + MergeLine(cart[1..], line);
      assert HasProduct(cart, line.productId) == HasProduct(cart[1..], line.productId) by {
        if HasProduct(cart, line.productId) {
          var i :| 0 <= i < |cart| && cart[i].productId == line.productId;
          assert cart[1..][i - 1].productId == line.productId;
        }
      }
      assert HasProduct(r, line.productId) by {
        var i :| 0 <= i < |r| - 1 && r[1..][i].productId == line.productId;
        assert r[i + 1].productId == line.productId;
      }
      r
  }

  /** When the first line for the product is at `i`, merging updates that line in place. */
  lemma {:induction false} MergeAt(cart: seq<CartLine>, line: CartLine, i: int)
    requires 0 <= i < |cart| && cart[i].productId == line.productId
    requires forall j :: 0 <= j < i ==> cart[j].productId != line.productId
    ensures MergeLine(cart, line) == cart[i := cart[i].(quantity := cart[i].quantity + line.quantity)]
  {
    if i > 0 {
      MergeAt(cart[1..], line, i - 1);
      assert [cart[0]] + cart[1..][i - 1 := cart[i].(quantity := cart[i].quantity + line.quantity)]
          == cart[i := cart[i].(quantity := cart[i].quantity + line.quantity)];
    }
  }

  /** When no line is for the product, merging appends `line`. */
  lemma {:induction false} MergeAbsent(cart: seq<CartLine>, line: CartLine)
    requires forall j :: 0 <= j < |cart| ==> cart[j].productId != line.productId
    ensures MergeLine(cart, line) == cart + [line]
  {
    if cart != [] {
      MergeAbsent(cart[1..], line);
      assert [cart[0]] + (cart[1..] + [line]) == cart + [line];
    }
  }

  /** Merging never puts a product id on two lines. */
  lemma {:induction false} MergeKeepsDistinct(cart: seq<CartLine>, line: CartLine)
    requires DistinctProducts(cart)
    ensures DistinctProducts(MergeLine(cart, line))
  {
    if forall j :: 0 <= j < |cart| ==> cart[j].productId != line.productId {
      MergeAbsent(cart, line);
    } else {
      var i :| 0 <= i < |cart| && cart[i].productId == line.productId;
      assert forall j :: 0 <= j < i ==> cart[j].productId != line.productId;
      MergeAt(cart, line, i);
    }
  }

  /** Two lines are for the same product under the same name and price. */
  predicate SameItem(a: CartLine, b: CartLine)
  {
    a.productId == b.productId && a.name == b.name && a.price == b.price
  }

  /** Merging changes quantities only: each line of the result has the product,
      name and price of the line of `cart` at the same position, or of `line`
      past the old end (`MergeAbsent` says that last line is `line` itself). */
  lemma {:induction false} MergeKeepsItems(cart: seq<CartLine>, line: CartLine)
    ensures forall i :: 0 <= i < |MergeLine(cart, line)| ==>
              SameItem(MergeLine(cart, line)[i], if i < |cart| then cart[i] else line)
  {
    if cart != [] && cart[0].productId != line.productId {
      MergeKeepsItems(cart[1..], line);
      var r := MergeLine(cart, line);
      forall i | 0 < i < |r| ensures SameItem(r[i], if i < |cart| then cart[i] else line) {
        assert r[i] == MergeLine(cart[1..], line)[i - 1];
      }
    }
  }

  /** The total quantity of product `pid` over the lines of `cart`. */
  function QuantityOf(cart: seq<CartLine>, pid: int): (r: int)
    ensures !HasProduct(cart, pid) ==> r == 0
    ensures DistinctProducts(cart) ==>
              forall i :: 0 <= i < |cart| && cart[i].productId == pid ==> r == cart[i].quantity
  {
    if cart == [] then 0
    else
      var rest := QuantityOf(cart[1..], pid);
      assert !HasProduct(cart, pid) ==> !HasProduct(cart[1..], pid) by {
        if HasProduct(cart[1..], pid) {
          var i :| 0 <= i < |cart[1..]| && cart[1..][i].productId == pid;
          assert cart[i + 1].productId == pid;
        }
      }
      assert DistinctProducts(cart) ==> DistinctProducts(cart[1..]) by {
        if DistinctProducts(cart) {
          forall i, j | 0 <= i < j < |cart[1..]| ensures cart[1..][i].productId != cart[1..][j].productId {
            assert cart[1..][i] == cart[i + 1] && cart[1..][j] == cart[j + 1];
          }
        }
      }
      assert DistinctProducts(cart) ==>
               forall i :: 1 <= i < |cart| && cart[i].productId == pid ==> rest == cart[i].quantity by {
        if DistinctProducts(cart) {
          forall i | 1 <= i < |cart| && cart[i].productId == pid ensures rest == cart[i].quantity {
            assert cart[1..][i - 1] == cart[i];
          }
        }
      }
      (if cart[0].productId == pid then cart[0].quantity else 0) + rest
  }

  /** Merging adds `line.quantity` to the quantity of its product and leaves
      the quantity of every other product unchanged. */
  lemma {:induction false} MergeQuantities(cart: seq<CartLine>, line: CartLine)
    ensures QuantityOf(MergeLine(cart, line), line.productId) == QuantityOf(cart, line.productId) + line.quantity
    ensures forall pid :: pid != line.productId ==> QuantityOf(MergeLine(cart, line), pid) == QuantityOf(cart, pid)
  {
    if cart == [] {
    } else if cart[0].productId == line.productId {
      assert MergeLine(cart, line)[1..] == cart[1..];
    } else {
      MergeQuantities(cart[1..], line);
      assert MergeLine(cart, line)[1..] == MergeLine(cart[1..], line);
    }
  }

  /** The order total in cents: the sum of price times quantity over the lines. */
  function Total(cart: seq<CartLine>): (r: int)
    ensures (forall i :: 0 <= i < |cart| ==> cart[i].price >= 0 && cart[i].quantity >= 0) ==> r >= 0
    ensures (forall i :: 0 <= i < |cart| ==> cart[i].quantity == 0) ==> r == 0
  {
    if cart == [] then 0 else cart[0].price * cart[0].quantity + Total(cart[1..])
  }

  /** When every line of the product carries the same price as `line`,
      merging raises the total by exactly `line.price * line.quantity`. */
  lemma {:induction false} MergeTotal(cart: seq<CartLine>, line: CartLine)
    requires forall i :: 0 <= i < |cart| && cart[i].productId == line.productId ==> cart[i].price == line.price
    ensures Total(MergeLine(cart, line)) == Total(cart) + line.price * line.quantity
  {
    if cart == [] {
    } else if cart[0].productId == line.productId {
      var q0 := cart[0].quantity;
      assert MergeLine(cart, line)[1..] == cart[1..];
      assert line.price * (q0 + line.quantity) == line.price * q0 + line.price * line.quantity;
    } else {
      MergeTotal(cart[1..], line);
      assert MergeLine(cart, line)[1..] == MergeLine(cart[1..], line);
    }
  }

  /** The scan of POST /api/cart over one cart, in order: add to the first line
      for the same product and stop, or append `line` when the scan finds none. */
  method AddLine(cart: seq<CartLine>, line: CartLine) returns (r: seq<CartLine>)
    ensures r == MergeLine(cart, line)
  {
    var i := 0;
    while i < |cart|
      invariant 0 <= i <= |cart|
      invariant forall j :: 0 <= j < i ==> cart[j].productId != line.productId
    {
      if cart[i].productId == line.productId {
        MergeAt(cart, line, i);
        return cart[i := cart[i].(quantity := cart[i].quantity + line.quantity)];
      }
      i := i + 1;
    }
    MergeAbsent(cart, line);
    r := cart + [line];
  }
}
