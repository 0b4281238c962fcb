/** The cart store: an ordered sequence of cart lines held in memory, with a
    durable mirror of it in local storage. Each operation is specified by a
    function from the current cart (and the lookup results) to a Transition;
    the class CartProvider performs that transition on its two fields. */
module UseCart {
  import opened CartTypes

  /** No two lines share a product id. */
  ghost predicate UniqueIds(c: seq<Item>)
  {
    forall i, j :: 0 <= i < j < |c| ==> c[i].Id() != c[j].Id()
  }

  /** Every line holds a positive quantity. */
  ghost predicate PositiveAmounts(c: seq<Item>)
  {
    forall i :: 0 <= i < |c| ==> c[i].amount >= 1
  }

  ghost predicate WellFormed(c: seq<Item>)
  {
    UniqueIds(c) && PositiveAmounts(c)
  }

  /** The position of the first line whose id is `id`, as `find` locates it. */
  function IndexOf(c: seq<Item>, id: int): (r: Option<nat>)
    ensures r.Some? ==> r.value < |c| && c[r.value].Id() == id
    ensures r.Some? ==> forall j :: 0 <= j < r.value ==> c[j].Id() != id
    ensures r.None? <==> forall j :: 0 <= j < |c| ==> c[j].Id() != id
  {
    if c == [] then None
    else if c[0].Id() == id then Some(0)
    else match IndexOf(c[1..], id)
      case Some(k) => Some(k + 1)
      case None => None
  }

  /** The quantity of the line for `id`, or 0 when the cart has none. */
  function CurrentAmount(c: seq<Item>, id: int): int
  {
    match IndexOf(c, id)
    case Some(i) => c[i].amount
    case None => 0
  }

  /** The cart with every line for `id` filtered out. */
  function Without(c: seq<Item>, id: int): (r: seq<Item>)
    ensures |r| <= |c|
    ensures forall x :: x in r <==> x in c && x.Id() != id
  {
    if c == [] then []
    else (if c[0].Id() == id then [] else [c[0]]) + Without(c[1..], id)
  }

  /** addProduct: both lookups must succeed; the product is rejected when the
      cart already holds as many as the stock has; otherwise a new line with
      quantity 1 is appended or the existing line goes up by one. */
  function AddProductStep(c: seq<Item>, productId: int, product: Option<Product>, stock: Option<Stock>): Transition
  {
    if product.None? || stock.None? then Fail(AddFailed)
    else if stock.value.amount <= CurrentAmount(c, productId) then Fail(OutOfStock)
    else match IndexOf(c, productId)
      case None => Write(c + [Item(product.value, 1)])
      case Some(i) => Write(c[i := c[i].(amount := c[i].amount + 1)])
  }

  /** removeProduct: an id absent from the cart is an error; otherwise the
      cart is filtered on that id. */
  function RemoveProductStep(c: seq<Item>, productId: int): Transition
  {
    if IndexOf(c, productId).None? then Fail(RemoveFailed)
    else Write(Without(c, productId))
  }

  /** updateProductAmount: a non-positive amount is ignored before any lookup;
      the stock lookup must succeed and cover the amount; then the line for the
      id, if any, takes that amount, and the cart is written either way. */
  function UpdateProductAmountStep(c: seq<Item>, productId: int, amount: int, stock: Option<Stock>): Transition
  {
    if amount <= 0 then Skip
    else if stock.None? then Fail(UpdateFailed)
    else if stock.value.amount < amount then Fail(OutOfStock)
    else match IndexOf(c, productId)
      case Some(i) => Write(c[i := c[i].(amount := amount)])
      case None => Write(c)
  }

  /** Array.prototype.find over the cart, returning the position it stops at. */
  method Find(c: seq<Item>, id: int) returns (r: Option<nat>)
    ensures r == IndexOf(c, id)
  {
    var i := 0;
    while i < |c|
      invariant 0 <= i <= |c|
      invariant forall j :: 0 <= j < i ==> c[j].Id() != id
    {
      if c[i].Id() == id {
        return Some(i);
      }
      i := i + 1;
    }
    return None;
  }

  /** The cart state of the provider: `cart` is the in-memory cart and
      `stored` the value under the storage key (None while the key is unset). */
  class CartProvider {
    var cart: seq<Item>
    var stored: Option<seq<Item>>

    /** Storage mirrors the in-memory cart; before the first write both are empty. */
    ghost predicate Valid()
      reads this
    {
      match stored
      case Some(s) => s == cart
      case None => cart == []
    }

    /** The initial state: the stored cart when the key holds one, else empty. */
    constructor (storage: Option<seq<Item>>)
      ensures Valid()
      ensures stored == storage
      ensures storage.Some? ==> cart == storage.value
      ensures storage.None? ==> cart == []
    {
      stored := storage;
      cart := if storage.Some? then storage.value else [];
    }

    /** setCart followed by localStorage.setItem. */
    method Save(newCart: seq<Item>)
      modifies this
      ensures Valid()
      ensures cart == newCart && stored == Some(newCart)
    {
      cart := newCart;
      stored := Some(newCart);
    }

    method AddProduct(productId: int, product: Option<Product>, stock: Option<Stock>) returns (t: Transition)
      requires Valid()
      modifies this
      ensures Valid()
      ensures t == AddProductStep(old(cart), productId, product, stock)
      ensures t.Write? ==> cart == t.next && stored == Some(t.next)
      ensures !t.Write? ==> cart == old(cart) && stored == old(stored)
    {
      if product.None? || stock.None? {
        return Fail(AddFailed);
      }
      var newCart := cart;
      var found := Find(newCart, productId);
      var currentAmount := if found.Some? then newCart[found.value].amount else 0;
      if stock.value.amount <= currentAmount {
        return Fail(OutOfStock);
      }
      if found.None? {
        newCart := newCart + [Item(product.value, 1)];
      } else {
        var i := found.value;
        newCart := newCart[i := newCart[i].(amount := currentAmount + 1)];
      }
      Save(newCart);
      t := Write(newCart);
    }

    method RemoveProduct(productId: int) returns (t: Transition)
      requires Valid()
      modifies this
      ensures Valid()
      ensures t == RemoveProductStep(old(cart), productId)
      ensures t.Write? ==> cart == t.next && stored == Some(t.next)
      ensures !t.Write? ==> cart == old(cart) && stored == old(stored)
    {
      var found := Find(cart, productId);
      if found.None? {
        return Fail(RemoveFailed);
      }
      var newCart := Without(cart, productId);
      Save(newCart);
      t := Write(newCart);
    }

    method UpdateProductAmount(productId: int, amount: int, stock: Option<Stock>) returns (t: Transition)
      requires Valid()
      modifies this
      ensures Valid()
      ensures t == UpdateProductAmountStep(old(cart), productId, amount, stock)
      ensures t.Write? ==> cart == t.next && stored == Some(t.next)
      ensures !t.Write? ==> cart == old(cart) && stored == old(stored)
    {
      if amount <= 0 {
        return Skip;
      }
      if stock.None? {
        return Fail(UpdateFailed);
      }
      if stock.value.amount < amount {
        return Fail(OutOfStock);
      }
      var newCart := cart;
      var found := Find(newCart, productId);
      if found.Some? {
        var i := found.value;
        newCart := newCart[i := newCart[i].(amount := amount)];
      }
      Save(newCart);
      t := Write(newCart);
    }
  }
}
