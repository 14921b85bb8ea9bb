/** The cart drawer's buttons. Each acts on the line it is drawn beside,
    but reaches the store only through `updateQuantity` and `removeItem`,
    which match on the product id: pressing a button on one size of a
    product acts on every size of it. */
module CartDrawer {
  import opened Seqs
  import opened Catalog
  import opened CartLines
  import opened CartStorage
  import opened CartContext

  /** A press on one of the buttons of line `line`. */
  datatype Press = Decrease(line: int) | Increase(line: int) | RemoveLine(line: int)

  /** What a press does to the list. A press on a line that is not shown
      does nothing, and so does `-` on a line of quantity 1 (it is disabled). */
  function PressStep(items: seq<CartItem>, press: Press): (r: seq<CartItem>)
    ensures !(0 <= press.line < |items|) ==> r == items
    ensures press.Decrease? && 0 <= press.line < |items| && items[press.line].quantity <= 1 ==> r == items
  {
    if !(0 <= press.line < |items|) then items
    else
      var x := items[press.line];
      match press
      case Decrease(_) => if x.quantity > 1 then SetQuantity(items, x.product.id, x.quantity - 1) else items
      case Increase(_) => SetQuantity(items, x.product.id, x.quantity + 1)
      case RemoveLine(_) => RemoveById(items, x.product.id)
  }

  function PressAll(items: seq<CartItem>, presses: seq<Press>): seq<CartItem>
    decreases |presses|
  {
    if presses == [] then items else PressAll(PressStep(items, presses[0]), presses[1..])
  }

  /** One press keeps every quantity at least 1 and keeps the merge keys
      distinct. */
  lemma PressKeepsInvariants(items: seq<CartItem>, press: Press)
    requires AllPositive(items) && UniqueKeys(items)
    ensures AllPositive(PressStep(items, press)) && UniqueKeys(PressStep(items, press))
  {
    if 0 <= press.line < |items| {
      var x := items[press.line];
      match press
      case Decrease(_) =>
        if x.quantity > 1 {
          SetQuantityPreservesUnique(items, x.product.id, x.quantity - 1);
        }
      case Increase(_) =>
        SetQuantityPreservesUnique(items, x.product.id, x.quantity + 1);
      case RemoveLine(_) =>
        RemovePreservesUnique(items, x.product.id);
        RemovePreservesPositive(items, x.product.id);
    }
  }

  /** No run of presses in the drawer drives a quantity below 1. */
  lemma {:induction false} PressAllKeepsInvariants(items: seq<CartItem>, presses: seq<Press>)
    requires AllPositive(items) && UniqueKeys(items)
    ensures AllPositive(PressAll(items, presses)) && UniqueKeys(PressAll(items, presses))
    decreases |presses|
  {
    if presses != [] {
      PressKeepsInvariants(items, presses[0]);
      PressAllKeepsInvariants(PressStep(items, presses[0]), presses[1..]);
    }
  }

  /** `-`: `item.quantity > 1 && updateQuantity(item.product.id, item.quantity - 1)`. */
  method DecreaseLine(store: CartStore, line: int)
    requires 0 <= line < |store.items|
    modifies store
    ensures store.items == PressStep(old(store.items), Decrease(line))
    ensures old(store.items[line].quantity) > 1 ==>
              store.storage == old(store.storage)[StorageKey := Serialize(store.items)]
    ensures old(store.items[line].quantity) <= 1 ==> store.storage == old(store.storage)
    ensures store.notices == old(store.notices)
    ensures forall j :: 0 <= j < |store.items| && old(store.items[line].quantity) > 1
              && store.items[j].product.id == old(store.items[line].product.id)
              ==> store.items[j].quantity == old(store.items[line].quantity) - 1
    ensures AllPositive(old(store.items)) && UniqueKeys(old(store.items)) ==>
              AllPositive(store.items) && UniqueKeys(store.items)
  {
    var x := store.items[line];
    if x.quantity > 1 {
      store.UpdateQuantity(x.product.id, x.quantity - 1);
    }
    if AllPositive(old(store.items)) && UniqueKeys(old(store.items)) {
      PressKeepsInvariants(old(store.items), Decrease(line));
    }
  }

  /** `+`: `updateQuantity(item.product.id, item.quantity + 1)`. */
  method IncreaseLine(store: CartStore, line: int)
    requires 0 <= line < |store.items|
    modifies store
    ensures store.items == PressStep(old(store.items), Increase(line))
    ensures store.storage == old(store.storage)[StorageKey := Serialize(store.items)]
    ensures store.notices == old(store.notices)
    ensures forall j :: 0 <= j < |store.items| && store.items[j].product.id == old(store.items[line].product.id)
              ==> store.items[j].quantity == old(store.items[line].quantity) + 1
    ensures AllPositive(old(store.items)) && UniqueKeys(old(store.items)) ==>
              AllPositive(store.items) && UniqueKeys(store.items)
  {
    var x := store.items[line];
    store.UpdateQuantity(x.product.id, x.quantity + 1);
    if AllPositive(old(store.items)) && UniqueKeys(old(store.items)) {
      PressKeepsInvariants(old(store.items), Increase(line));
    }
  }

  /** `x`: `removeItem(item.product.id)`. */
  method RemoveLineAt(store: CartStore, line: int)
    requires 0 <= line < |store.items|
    modifies store
    ensures store.items == PressStep(old(store.items), RemoveLine(line))
    ensures forall y :: y in store.items ==> y.product.id != old(store.items[line].product.id)
    ensures store.storage == old(store.storage)[StorageKey := Serialize(store.items)]
    ensures store.notices == old(store.notices) + [Removed]
    ensures AllPositive(old(store.items)) && UniqueKeys(old(store.items)) ==>
              AllPositive(store.items) && UniqueKeys(store.items)
  {
    var x := store.items[line];
    store.RemoveItem(x.product.id);
    if AllPositive(old(store.items)) && UniqueKeys(old(store.items)) {
      PressKeepsInvariants(old(store.items), RemoveLine(line));
    }
  }

  /** The footer with its subtotal is shown only for a non-empty cart. */
  function FooterSubtotal(items: seq<CartItem>): (r: Option<int>)
    ensures r.None? <==> items == []
    ensures r.Some? ==> r.value == Total(items)
  {
    if |items| > 0 then Some(Total(items)) else None
  }

  /** `+` on size M of a product also raises size L of it. */
  lemma IncreaseRaisesEverySize(p: Product)
    ensures PressStep([CartItem(p, 2, "M"), CartItem(p, 1, "L")], Increase(0))
            == [CartItem(p, 3, "M"), CartItem(p, 3, "L")]
  {
  }
}
