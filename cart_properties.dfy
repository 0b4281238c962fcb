/** What the cart store promises: stock bounds, unique ids, order of lines,
    rejected operations leaving the cart alone, and the well-formedness of the
    cart being kept by every operation that writes. */
module CartProperties {
  import opened CartTypes
  import opened UseCart

  // ---------------------------------------------------------------- addProduct

  /** addProduct writes exactly when both lookups succeed and the stock
      exceeds what the cart already holds; it never returns silently. */
  lemma AddProductWritesIff(c: seq<Item>, productId: int, product: Option<Product>, stock: Option<Stock>)
    ensures AddProductStep(c, productId, product, stock).Write? <==>
            product.Some? && stock.Some? && CurrentAmount(c, productId) < stock.value.amount
    ensures !AddProductStep(c, productId, product, stock).Skip?
  {
  }

  /** A failed product or stock lookup raises the generic add error and writes nothing. */
  lemma AddProductLookupFailure(c: seq<Item>, productId: int, product: Option<Product>, stock: Option<Stock>)
    requires product.None? || stock.None?
    ensures AddProductStep(c, productId, product, stock) == Fail(AddFailed)
  {
  }

  /** When the stock does not exceed the quantity already in the cart, the
      out-of-stock notification is raised and nothing is written. */
  lemma AddProductOutOfStock(c: seq<Item>, productId: int, product: Product, stock: Stock)
    requires stock.amount <= CurrentAmount(c, productId)
    ensures AddProductStep(c, productId, Some(product), Some(stock)) == Fail(OutOfStock)
  {
  }

  /** Adding a product the cart does not hold, with stock of at least one,
      appends one line of quantity 1 at the end and keeps every earlier line. */
  lemma AddProductAppendsNew(c: seq<Item>, productId: int, product: Product, stock: Stock)
    requires IndexOf(c, productId).None?
    requires stock.amount >= 1
    ensures AddProductStep(c, productId, Some(product), Some(stock)).Write?
    ensures var next := AddProductStep(c, productId, Some(product), Some(stock)).next;
            |next| == |c| + 1 && next[..|c|] == c &&
            next[|c|].product == product && next[|c|].amount == 1
  {
  }

  /** Adding a product the cart holds, below its stock, raises the first line
      for it by exactly one; the length, the ids and every other line stay as
      they were, so unique ids stay unique. */
  lemma AddProductIncrementsExisting(c: seq<Item>, productId: int, product: Product, stock: Stock, i: nat)
    requires i < |c| && c[i].Id() == productId
    requires forall j :: 0 <= j < i ==> c[j].Id() != productId
    requires c[i].amount < stock.amount
    ensures AddProductStep(c, productId, Some(product), Some(stock)).Write?
    ensures var next := AddProductStep(c, productId, Some(product), Some(stock)).next;
            |next| == |c| && next[i].amount == c[i].amount + 1 && next[i].product == c[i].product &&
            (forall j :: 0 <= j < |c| && j != i ==> next[j] == c[j]) &&
            (UniqueIds(c) ==> UniqueIds(next))
  {
    assert IndexOf(c, productId) == Some(i);
  }

  /** Adding the same product n times to a cart without it, with more than n
      in stock, leaves one line for it holding n. */
  lemma {:induction false} AddProductRepeated(c: seq<Item>, product: Product, stock: Stock, n: nat)
    requires IndexOf(c, product.id).None?
    requires n <= stock.amount
    ensures n == 0 ==> AddRepeatedly(c, product, stock, n) == c
    ensures n > 0 ==> AddRepeatedly(c, product, stock, n) == c + [Item(product, n)]
  {
    if n == 1 {
      AddProductAppendsNew(c, product.id, product, stock);
    } else if n > 1 {
      AddProductRepeated(c, product, stock, n - 1);
      AddToLastLine(c, product, stock, n - 1);
    }
  }

  /** One more add of the product that sits alone in the last line raises that line. */
  lemma AddToLastLine(c: seq<Item>, product: Product, stock: Stock, k: int)
    requires IndexOf(c, product.id).None?
    requires k < stock.amount
    ensures AddProductStep(c + [Item(product, k)], product.id, Some(product), Some(stock)) == Write(c + [Item(product, k + 1)])
  {
    var prev := c + [Item(product, k)];
    assert prev[|c|].Id() == product.id;
    assert forall j :: 0 <= j < |c| ==> prev[j] == c[j];
    assert IndexOf(prev, product.id) == Some(|c|);
    assert prev[|c| := Item(product, k + 1)] == c + [Item(product, k + 1)];
  }

  /** The cart after n successive successful adds of one product. */
  function AddRepeatedly(c: seq<Item>, product: Product, stock: Stock, n: nat): seq<Item>
  {
    if n == 0 then c
    else
      var prev := AddRepeatedly(c, product, stock, n - 1);
      match AddProductStep(prev, product.id, Some(product), Some(stock))
      case Write(next) => next
      case _ => prev
  }

  /** A write by addProduct keeps ids unique and quantities positive, and the
      touched line ends at most at the stock, provided the catalog answers with
      the record of the requested id. */
  lemma AddProductPreservesWellFormed(c: seq<Item>, productId: int, product: Product, stock: Stock)
    requires WellFormed(c)
    requires product.id == productId
    requires AddProductStep(c, productId, Some(product), Some(stock)).Write?
    ensures var next := AddProductStep(c, productId, Some(product), Some(stock)).next;
            WellFormed(next) &&
            IndexOf(next, productId).Some? &&
            1 <= next[IndexOf(next, productId).value].amount <= stock.amount
  {
    var next := AddProductStep(c, productId, Some(product), Some(stock)).next;
    match IndexOf(c, productId)
    case None =>
      assert next == c + [Item(product, 1)];
      assert next[|c|].Id() == productId;
      assert IndexOf(next, productId) == Some(|c|);
    case Some(i) =>
      assert next[i].Id() == productId;
      assert IndexOf(next, productId) == Some(i);
  }

  // ------------------------------------------------------------- removeProduct

  /** Removing an id the cart does not hold raises the removal error and writes nothing. */
  lemma RemoveProductAbsent(c: seq<Item>, productId: int)
    requires forall j :: 0 <= j < |c| ==> c[j].Id() != productId
    ensures RemoveProductStep(c, productId) == Fail(RemoveFailed)
  {
  }

  /** Removing an id the cart holds writes a shorter cart with no line for the
      id and with every line of another id. */
  lemma RemoveProductPresent(c: seq<Item>, productId: int, i: nat)
    requires i < |c| && c[i].Id() == productId
    ensures RemoveProductStep(c, productId).Write?
    ensures var next := RemoveProductStep(c, productId).next;
            |next| < |c| &&
            (forall j :: 0 <= j < |next| ==> next[j].Id() != productId) &&
            (forall j :: 0 <= j < |c| && c[j].Id() != productId ==> c[j] in next)
  {
    var next := RemoveProductStep(c, productId).next;
    if |next| == |c| {
      WithoutLength(c, productId);
    }
    forall j | 0 <= j < |next| ensures next[j].Id() != productId {
      assert next[j] in next;
    }
  }

  /** A filter that drops at least one line yields a shorter cart. */
  lemma {:induction false} WithoutLength(c: seq<Item>, id: int)
    requires exists j :: 0 <= j < |c| && c[j].Id() == id
    ensures |Without(c, id)| < |c|
  {
    if c[0].Id() != id {
      var j :| 0 <= j < |c| && c[j].Id() == id;
      assert c[1..][j - 1].Id() == id;
      WithoutLength(c[1..], id);
    }
  }

  /** Filtering distributes over concatenation: the kept lines stay in their
      original relative order. */
  lemma {:induction false} WithoutAppend(a: seq<Item>, b: seq<Item>, id: int)
    ensures Without(a + b, id) == Without(a, id) + Without(b, id)
  {
    if a == [] {
      assert a + b == b;
    } else {
      assert (a + b)[1..] == a[1..] + b;
      WithoutAppend(a[1..], b, id);
    }
  }

  /** Filtering an id the cart does not hold returns the cart itself. */
  lemma {:induction false} WithoutAbsent(c: seq<Item>, id: int)
    requires forall j :: 0 <= j < |c| ==> c[j].Id() != id
    ensures Without(c, id) == c
  {
    if c != [] {
      WithoutAbsent(c[1..], id);
    }
  }

  /** In a cart with unique ids, removing a present id removes exactly its one
      line; all other lines keep their order. */
  lemma RemoveProductExactlyOneLine(c: seq<Item>, productId: int, i: nat)
    requires UniqueIds(c)
    requires i < |c| && c[i].Id() == productId
    ensures RemoveProductStep(c, productId) == Write(c[..i] + c[i + 1..])
  {
    var front, rest := c[..i], c[i + 1..];
    forall j | 0 <= j < |front| ensures front[j].Id() != productId {
      assert front[j] == c[j];
    }
    forall j | 0 <= j < |rest| ensures rest[j].Id() != productId {
      assert rest[j] == c[i + 1 + j];
    }
    WithoutAbsent(front, productId);
    WithoutAbsent(rest, productId);
    WithoutDropsLine(front, c[i], rest, productId);
    assert c == front + [c[i]] + rest;
  }

  /** Filtering a line of the id out from between two filtered parts. */
  lemma WithoutDropsLine(front: seq<Item>, x: Item, rest: seq<Item>, id: int)
    requires x.Id() == id
    ensures Without(front + [x] + rest, id) == Without(front, id) + Without(rest, id)
  {
    assert Without([x], id) == [] by {
      assert [x][1..] == [];
    }
    WithoutAppend(front, [x], id);
    WithoutAppend(front + [x], rest, id);
  }

  /** A write by removeProduct keeps ids unique and quantities positive. */
  lemma RemoveProductPreservesWellFormed(c: seq<Item>, productId: int)
    requires WellFormed(c)
    requires RemoveProductStep(c, productId).Write?
    ensures WellFormed(RemoveProductStep(c, productId).next)
  {
    var i := IndexOf(c, productId).value;
    RemoveProductExactlyOneLine(c, productId, i);
    DropLineWellFormed(c, i);
  }

  /** Dropping one line from a well-formed cart leaves it well-formed. */
  lemma DropLineWellFormed(c: seq<Item>, i: nat)
    requires WellFormed(c)
    requires i < |c|
    ensures WellFormed(c[..i] + c[i + 1..])
  {
    var next := c[..i] + c[i + 1..];
    forall j | 0 <= j < |next| ensures next[j] == c[if j < i then j else j + 1] {
    }
    forall j, k | 0 <= j < k < |next| ensures next[j].Id() != next[k].Id() {
      assert next[j] == c[if j < i then j else j + 1];
      assert next[k] == c[if k < i then k else k + 1];
    }
  }

  // ------------------------------------------------------ updateProductAmount

  /** A non-positive amount is ignored: no lookup matters, nothing is written, no error. */
  lemma UpdateIgnoresNonPositive(c: seq<Item>, productId: int, amount: int, stock: Option<Stock>)
    requires amount <= 0
    ensures UpdateProductAmountStep(c, productId, amount, stock) == Skip
  {
  }

  /** A failed stock lookup for a positive amount raises the update error and writes nothing. */
  lemma UpdateLookupFailure(c: seq<Item>, productId: int, amount: int)
    requires amount > 0
    ensures UpdateProductAmountStep(c, productId, amount, None) == Fail(UpdateFailed)
  {
  }

  /** An amount above the stock raises the out-of-stock notification and writes nothing. */
  lemma UpdateOutOfStock(c: seq<Item>, productId: int, amount: int, stock: Stock)
    requires amount > 0 && stock.amount < amount
    ensures UpdateProductAmountStep(c, productId, amount, Some(stock)) == Fail(OutOfStock)
  {
  }

  /** updateProductAmount writes exactly when the amount is positive, the
      lookup succeeds and the stock covers the amount. */
  lemma UpdateWritesIff(c: seq<Item>, productId: int, amount: int, stock: Option<Stock>)
    ensures UpdateProductAmountStep(c, productId, amount, stock).Write? <==>
            amount > 0 && stock.Some? && amount <= stock.value.amount
  {
  }

  /** An accepted amount becomes exactly the quantity of the first line for the id;
      every other line, and the length, stay as they were. */
  lemma UpdateSetsAmount(c: seq<Item>, productId: int, amount: int, stock: Stock, i: nat)
    requires i < |c| && c[i].Id() == productId
    requires forall j :: 0 <= j < i ==> c[j].Id() != productId
    requires 0 < amount <= stock.amount
    ensures UpdateProductAmountStep(c, productId, amount, Some(stock)).Write?
    ensures var next := UpdateProductAmountStep(c, productId, amount, Some(stock)).next;
            |next| == |c| && next[i].amount == amount && next[i].product == c[i].product &&
            forall j :: 0 <= j < |c| && j != i ==> next[j] == c[j]
  {
    assert IndexOf(c, productId) == Some(i);
  }

  /** An accepted amount for an id the cart does not hold still writes, but
      the written cart is the cart unchanged. */
  lemma UpdateAbsentWritesSameCart(c: seq<Item>, productId: int, amount: int, stock: Stock)
    requires forall j :: 0 <= j < |c| ==> c[j].Id() != productId
    requires 0 < amount <= stock.amount
    ensures UpdateProductAmountStep(c, productId, amount, Some(stock)) == Write(c)
  {
  }

  /** A write by updateProductAmount keeps ids unique and quantities positive,
      and the line for the id, if any, holds at most the stock. */
  lemma UpdatePreservesWellFormed(c: seq<Item>, productId: int, amount: int, stock: Stock)
    requires WellFormed(c)
    requires UpdateProductAmountStep(c, productId, amount, Some(stock)).Write?
    ensures var next := UpdateProductAmountStep(c, productId, amount, Some(stock)).next;
            WellFormed(next) &&
            (IndexOf(next, productId).Some? ==> next[IndexOf(next, productId).value].amount <= stock.amount)
  {
    var next := UpdateProductAmountStep(c, productId, amount, Some(stock)).next;
    match IndexOf(c, productId)
    case None =>
    case Some(i) =>
      assert next[i].Id() == productId;
      assert IndexOf(next, productId) == Some(i);
  }

  // ----------------------------------------------------------- a whole session

  /** Empty cart, five in stock: add, add, set to five, then a further add is
      refused and the cart stays at five. */
  lemma ExampleSession(product: Product)
    requires product.id == 1
    ensures var stock := Stock(1, 5);
            var t1 := AddProductStep([], 1, Some(product), Some(stock));
            t1 == Write([Item(product, 1)]) &&
            var t2 := AddProductStep(t1.next, 1, Some(product), Some(stock));
            t2 == Write([Item(product, 2)]) &&
            var t3 := UpdateProductAmountStep(t2.next, 1, 5, Some(stock));
            t3 == Write([Item(product, 5)]) &&
            AddProductStep(t3.next, 1, Some(product), Some(stock)) == Fail(OutOfStock)
  {
    assert IndexOf([Item(product, 1)], 1) == Some(0);
    assert IndexOf([Item(product, 2)], 1) == Some(0);
    assert IndexOf([Item(product, 5)], 1) == Some(0);
  }
}
