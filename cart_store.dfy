/**
 The storefront's cart store: the `cart` list and the `cartCount` running
 counter of the page object, with the four operations that change or read
 them. The counter is never recomputed; every mutator moves it by hand, and
 `Valid` states that it always equals the number of units in the cart.
 */
module Store {
  import opened LineItems

  class CartStore {
    /** The line items, in insertion order. */
    var cart: seq<Item>
    /** Running count of units, shown on the cart badge. */
    var cartCount: int

    ghost predicate Valid()
      reads this
    {
      Inv(cart, cartCount)
    }

    /** A new store holds an empty cart and a zero counter. */
    constructor ()
      ensures Valid()
      ensures cart == [] && cartCount == 0
    {
      cart := [];
      cartCount := 0;
    }

    /**
     The commit step of add-to-cart: bump the quantity of the entry with `id`
     or append a new entry with one unit, then bump the counter.
     */
    method AddItem(id: string, name: string, price: int)
      requires Valid()
      modifies this
      ensures Valid()
      ensures cart == Added(old(cart), id, name, price)
      ensures cartCount == old(cartCount) + 1
      ensures HasId(cart, id)
    {
      AddedKeepsInvariant(cart, cartCount, id, name, price);
      var existing := FindIndex(cart, id);
      if existing >= 0 {
        AddedExisting(cart, id, name, price);
        cart := cart[existing := cart[existing].(quantity := cart[existing].quantity + 1)];
      } else {
        AddedNew(cart, id, name, price);
        cart := cart + [Item(id, name, price, 1)];
      }
      cartCount := cartCount + 1;
    }

    /**
     Delete the entry with `id` and subtract its whole quantity from the
     counter; an absent id changes nothing.
     */
    method RemoveFromCart(id: string)
      requires Valid()
      modifies this
      ensures Valid()
      ensures cart == Removed(old(cart), id)
      ensures cartCount == old(cartCount) - QuantityOf(old(cart), id)
      ensures !HasId(cart, id)
      ensures !HasId(old(cart), id) ==> cart == old(cart) && cartCount == old(cartCount)
    {
      RemovedKeepsInvariant(cart, cartCount, id);
      var itemIndex := FindIndex(cart, id);
      if itemIndex > -1 {
        RemovedPresent(cart, id);
        var item := cart[itemIndex];
        cartCount := cartCount - item.quantity;
        cart := cart[..itemIndex] + cart[itemIndex + 1..];
      } else {
        RemovedAbsent(cart, id);
      }
    }

    /** Empty the cart and reset the counter, whatever the state before. */
    method ClearCart()
      modifies this
      ensures Valid()
      ensures cart == [] && cartCount == 0
    {
      cart := [];
      cartCount := 0;
    }

    /** The price of the cart; 0 when it is empty. */
    function CartTotal(): (r: int)
      reads this
      ensures r == Total(cart)
      ensures cart == [] ==> r == 0
    {
      ReduceTotal(cart, 0)
    }

    /**
     The current line items. Whoever reads them sees unique ids and a number of
     units equal to the counter, which is at least the number of entries.
     */
    function CartItems(): (r: seq<Item>)
      reads this
      requires Valid()
      ensures r == cart
      ensures UniqueIds(r) && PositiveQuantities(r)
      ensures Quantities(r) == cartCount && |r| <= cartCount
    {
      CounterBounds(cart, cartCount);
      cart
    }
  }

  /**
   A shopper adds the same pair of sneakers twice at 49.90: one entry with two
   units, a counter of 2 and a total of 99.80.
   */
  method SneakerTwice() returns (entries: nat, quantity: int, count: int, total: int)
    ensures entries == 1 && quantity == 2 && count == 2 && total == 9980
  {
    var store := new CartStore();
    store.AddItem("p1", "Sneaker", 4990);
    store.AddItem("p1", "Sneaker", 4990);
    var items := store.CartItems();
    entries := |items|;
    quantity := items[0].quantity;
    count := store.cartCount;
    total := store.CartTotal();
  }
}
