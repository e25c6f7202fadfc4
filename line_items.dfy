/**
 The line items of the storefront's shopping cart, as values, and the pure
 operations on a sequence of them: looking an item up by id, the reference
 definitions of adding and removing an item, and the two sums the store keeps
 (the number of units, shown on the cart badge, and the price total).
 */
module LineItems {

  /** One cart entry. `price` is the unit price in cents. */
  datatype Item = Item(id: string, name: string, price: int, quantity: int)

  /** Price of one line: unit price times quantity. */
  function LineTotal(it: Item): int {
    it.price * it.quantity
  }

  /** Some entry of `items` carries `id`. */
  ghost predicate HasId(items: seq<Item>, id: string) {
    exists i :: 0 <= i < |items| && items[i].id == id
  }

  /** No two entries share an id. */
  ghost predicate UniqueIds(items: seq<Item>) {
    forall i, j :: 0 <= i < j < |items| ==> items[i].id != items[j].id
  }

  /** Every entry holds at least one unit. */
  ghost predicate PositiveQuantities(items: seq<Item>) {
    forall i :: 0 <= i < |items| ==> items[i].quantity >= 1
  }

  /** Number of units in the cart: the sum of the quantities. */
  function Quantities(items: seq<Item>): int {
    if items == [] then 0 else items[0].quantity + Quantities(items[1..])
  }

  /** Price of the cart: the sum of the line totals. */
  function Total(items: seq<Item>): int {
    if items == [] then 0 else LineTotal(items[0]) + Total(items[1..])
  }

  /**
   The store's invariant: ids are unique, every quantity is at least 1 and the
   running counter `count` equals the number of units.
   */
  ghost predicate Inv(items: seq<Item>, count: int) {
    UniqueIds(items) && PositiveQuantities(items) && count == Quantities(items)
  }

  /**
   Index of the first entry with `id`, or -1 when there is none (the array
   methods `findIndex`, and `find` read through that index).
   */
  function FindIndex(items: seq<Item>, id: string): (r: int)
    ensures -1 <= r < |items|
    ensures r == -1 <==> !HasId(items, id)
    ensures r >= 0 ==> items[r].id == id && forall j :: 0 <= j < r ==> items[j].id != id
  {
    if items == [] then -1
    else if items[0].id == id then 0
    else
      var k := FindIndex(items[1..], id);
      assert forall j :: 0 < j < |items| ==> items[j] == items[1..][j - 1];
      if k == -1 then -1 else k + 1
  }

  /** Units held by the entry with `id`, 0 when there is none. */
  function QuantityOf(items: seq<Item>, id: string): int {
    var i := FindIndex(items, id);
    if i < 0 then 0 else items[i].quantity
  }

  /**
   Reference definition of the add-to-cart commit step: the first entry with
   `id` gains one unit and keeps its name and price; without such an entry a new
   one with a single unit goes at the end.
   */
  function Added(items: seq<Item>, id: string, name: string, price: int): seq<Item> {
    if items == [] then [Item(id, name, price, 1)]
    else if items[0].id == id then [items[0].(quantity := items[0].quantity + 1)] + items[1..]
    else [items[0]] + Added(items[1..], id, name, price)
  }

  /**
   Reference definition of removal: the first entry with `id` goes, the others
   stay in their order; without such an entry nothing changes.
   */
  function Removed(items: seq<Item>, id: string): seq<Item> {
    if items == [] then []
    else if items[0].id == id then items[1..]
    else [items[0]] + Removed(items[1..], id)
  }

  /**
   The cart total as the source folds it: left to right, starting from `acc`.
   It agrees with the sum of the line totals.
   */
  function ReduceTotal(items: seq<Item>, acc: int): (r: int)
    ensures r == acc + Total(items)
  {
    if items == [] then acc
    else ReduceTotal(items[1..], acc + LineTotal(items[0]))
  }

  /**
   Adding an id that is present adds no entry: the matching entry gains
   exactly one unit, keeps its name and price, and every other entry is
   unchanged.
   */
  lemma {:induction false} AddedExisting(items: seq<Item>, id: string, name: string, price: int)
    requires HasId(items, id)
    ensures var i := FindIndex(items, id);
      Added(items, id, name, price) == items[i := items[i].(quantity := items[i].quantity + 1)]
  {
    if items[0].id != id {
      var k := FindIndex(items[1..], id);
      AddedExisting(items[1..], id, name, price);
      assert items == [items[0]] + items[1..];
    }
  }

  /** Adding an id that is absent appends exactly one entry, with one unit. */
  lemma {:induction false} AddedNew(items: seq<Item>, id: string, name: string, price: int)
    requires !HasId(items, id)
    ensures Added(items, id, name, price) == items + [Item(id, name, price, 1)]
  {
    if items != [] {
      assert !HasId(items[1..], id) by {
        forall j | 0 <= j < |items[1..]| ensures items[1..][j].id != id {
          assert items[1..][j] == items[j + 1];
        }
      }
      AddedNew(items[1..], id, name, price);
      assert items == [items[0]] + items[1..];
    }
  }

  /** Every add puts exactly one more unit in the cart. */
  lemma {:induction false} AddedQuantities(items: seq<Item>, id: string, name: string, price: int)
    ensures Quantities(Added(items, id, name, price)) == Quantities(items) + 1
  {
    if items != [] && items[0].id != id {
      AddedQuantities(items[1..], id, name, price);
    }
  }

  /**
   Every add raises the total by one unit price: the price already recorded for
   the id when it is present, the given one otherwise.
   */
  lemma {:induction false} AddedTotal(items: seq<Item>, id: string, name: string, price: int)
    ensures var i := FindIndex(items, id);
      Total(Added(items, id, name, price)) == Total(items) + (if i < 0 then price else items[i].price)
  {
    if items != [] && items[0].id != id {
      AddedTotal(items[1..], id, name, price);
    }
  }

  /** Adding keeps the invariant, with the counter one higher. */
  lemma AddedKeepsInvariant(items: seq<Item>, count: int, id: string, name: string, price: int)
    requires Inv(items, count)
    ensures Inv(Added(items, id, name, price), count + 1)
    ensures HasId(Added(items, id, name, price), id)
  {
    AddedQuantities(items, id, name, price);
    var r := Added(items, id, name, price);
    if HasId(items, id) {
      AddedExisting(items, id, name, price);
      var i := FindIndex(items, id);
      assert r[i].id == id;
    } else {
      AddedNew(items, id, name, price);
      assert r[|items|].id == id;
    }
  }

  /**
   Removing an id that is present deletes exactly the first entry with it and
   keeps the remaining entries in their order.
   */
  lemma {:induction false} RemovedPresent(items: seq<Item>, id: string)
    requires HasId(items, id)
    ensures var i := FindIndex(items, id);
      Removed(items, id) == items[..i] + items[i + 1..]
  {
    if items[0].id != id {
      var k := FindIndex(items[1..], id);
      RemovedPresent(items[1..], id);
      assert items[..k + 1] == [items[0]] + items[1..][..k];
      assert items[k + 2..] == items[1..][k + 1..];
    }
  }

  /** Removing an id that is absent changes nothing. */
  lemma {:induction false} RemovedAbsent(items: seq<Item>, id: string)
    requires !HasId(items, id)
    ensures Removed(items, id) == items
  {
    if items != [] {
      assert !HasId(items[1..], id) by {
        forall j | 0 <= j < |items[1..]| ensures items[1..][j].id != id {
          assert items[1..][j] == items[j + 1];
        }
      }
      RemovedAbsent(items[1..], id);
      assert items == [items[0]] + items[1..];
    }
  }

  /** Removing takes away the whole quantity of the removed entry. */
  lemma {:induction false} RemovedQuantities(items: seq<Item>, id: string)
    ensures Quantities(Removed(items, id)) == Quantities(items) - QuantityOf(items, id)
  {
    if items != [] && items[0].id != id {
      RemovedQuantities(items[1..], id);
    }
  }

  /** Removing takes away the whole line total of the removed entry. */
  lemma {:induction false} RemovedTotal(items: seq<Item>, id: string)
    ensures var i := FindIndex(items, id);
      Total(Removed(items, id)) == Total(items) - (if i < 0 then 0 else LineTotal(items[i]))
  {
    if items != [] && items[0].id != id {
      RemovedTotal(items[1..], id);
    }
  }

  /**
   Removing keeps the invariant, with the counter lowered by the removed
   quantity, and with unique ids the id is gone from the cart afterwards.
   */
  lemma RemovedKeepsInvariant(items: seq<Item>, count: int, id: string)
    requires Inv(items, count)
    ensures Inv(Removed(items, id), count - QuantityOf(items, id))
    ensures !HasId(Removed(items, id), id)
  {
    RemovedQuantities(items, id);
    if HasId(items, id) {
      RemovedPresent(items, id);
      var i := FindIndex(items, id);
      var r := items[..i] + items[i + 1..];
      assert forall k :: 0 <= k < |r| ==> r[k] == if k < i then items[k] else items[k + 1];
    } else {
      RemovedAbsent(items, id);
    }
  }

  /** Adding an id that is absent and then removing it gives back the cart. */
  lemma {:induction false} RemoveUndoesAddNew(items: seq<Item>, id: string, name: string, price: int)
    requires !HasId(items, id)
    ensures Removed(Added(items, id, name, price), id) == items
  {
    AddedNew(items, id, name, price);
    var r := items + [Item(id, name, price, 1)];
    assert FindIndex(r, id) == |items| by {
      assert r[|items|].id == id;
      assert forall j :: 0 <= j < |items| ==> r[j] == items[j];
    }
    RemovedPresent(r, id);
    assert r[..|items|] == items;
  }

  /**
   Under the invariant the counter is at least the number of entries, and it is
   0 exactly when the cart is empty.
   */
  lemma {:induction false} CounterBounds(items: seq<Item>, count: int)
    requires Inv(items, count)
    ensures count >= |items|
    ensures count == 0 <==> items == []
  {
    if items != [] {
      assert Inv(items[1..], count - items[0].quantity) by {
        forall j | 0 <= j < |items[1..]| ensures items[1..][j] == items[j + 1] { }
      }
      CounterBounds(items[1..], count - items[0].quantity);
    }
  }
}
