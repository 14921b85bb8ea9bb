/** The cart provider: the line list, the browser's key-value storage it is
    mirrored into, and the notices its mutations raise. Each mutation is one
    atomic step followed by the save effect, which writes the whole list back
    under `StorageKey`. */
module CartContext {
  import opened Seqs
  import opened Catalog
  import opened CartLines
  import opened CartStorage

  const StorageKey: string := "klassico_cart"

  /** The toast each mutation shows; `updateQuantity` shows none. */
  datatype Notice = Added | QuantityUpdated | Removed | Cleared

  class CartStore {
    var items: seq<CartItem>
    var storage: map<string, seq<Token>>
    var notices: seq<Notice>

    /** The storage holds the serialization of the whole current list. */
    ghost predicate Persisted()
      reads this
    {
      StorageKey in storage && storage[StorageKey] == Serialize(items)
    }

    /** The provider mounts with an empty list, runs the load effect and then
        the save effect. Valid stored data becomes the list and is written
        back as it was; corrupt data is dropped and replaced by an empty list,
        and so is a missing key. */
    constructor Mount(stored: map<string, seq<Token>>)
      ensures notices == []
      ensures Persisted()
      ensures StorageKey in stored && stored[StorageKey] != [] && Parse(stored[StorageKey]).Some? ==>
                items == Parse(stored[StorageKey]).value && storage == stored
      ensures !(StorageKey in stored && stored[StorageKey] != [] && Parse(stored[StorageKey]).Some?) ==>
                items == [] && storage == stored[StorageKey := Serialize([])]
    {
      items := [];
      storage := stored;
      notices := [];
      new;
      var loaded := LoadFromStorage();
      Save();
      if loaded {
        SerializeParse(stored[StorageKey], items);
      }
    }

    /** The load effect. A non-empty stored value that parses replaces the
        list; one that does not parse is removed and the list is kept. An
        absent or empty value changes nothing. `loaded` says the list was
        replaced. */
    method LoadFromStorage() returns (loaded: bool)
      modifies this
      ensures notices == old(notices)
      ensures loaded <==> StorageKey in old(storage) && old(storage)[StorageKey] != []
                          && Parse(old(storage)[StorageKey]).Some?
      ensures loaded ==> items == Parse(old(storage)[StorageKey]).value && storage == old(storage)
      ensures loaded ==> Persisted()
      ensures !loaded && StorageKey in old(storage) && old(storage)[StorageKey] != [] ==>
                items == old(items) && storage == old(storage) - {StorageKey}
      ensures !(StorageKey in old(storage) && old(storage)[StorageKey] != []) ==>
                items == old(items) && storage == old(storage)
    {
      loaded := false;
      if StorageKey in storage && storage[StorageKey] != [] {
        var stored := storage[StorageKey];
        match Parse(stored)
        case Some(parsed) =>
          items := parsed;
          loaded := true;
          SerializeParse(stored, parsed);
        case None =>
          storage := storage - {StorageKey};
      }
    }

    /** The save effect. */
    method Save()
      modifies this
      ensures items == old(items) && notices == old(notices)
      ensures storage == old(storage)[StorageKey := Serialize(items)]
      ensures Persisted()
    {
      storage := storage[StorageKey := Serialize(items)];
    }

    /** `addItem`: merge on `(product.id, size)` or append. */
    method AddItem(product: Product, quantity: int, size: string)
      modifies this
      ensures items == AddLine(old(items), product, quantity, size)
      ensures storage == old(storage)[StorageKey := Serialize(items)] && Persisted()
      ensures notices == old(notices) + [if FindLine(old(items), (product.id, size)) == -1
                                         then Added else QuantityUpdated]
      ensures UniqueKeys(old(items)) ==> UniqueKeys(items)
      ensures AllPositive(old(items)) && quantity >= 1 ==> AllPositive(items)
      ensures ItemCount(items) == ItemCount(old(items)) + quantity
    {
      var i := FindLine(items, (product.id, size));
      if i != -1 {
        items := items[i := items[i].(quantity := items[i].quantity + quantity)];
        notices := notices + [QuantityUpdated];
      } else {
        items := items + [CartItem(product, quantity, size)];
        notices := notices + [Added];
      }
      if UniqueKeys(old(items)) {
        AddPreservesUnique(old(items), product, quantity, size);
      }
      if AllPositive(old(items)) && quantity >= 1 {
        AddPreservesPositive(old(items), product, quantity, size);
      }
      AddItemCount(old(items), product, quantity, size);
      Save();
    }

    /** `removeItem`: drop every line of the product, whatever its size. */
    method RemoveItem(productId: int)
      modifies this
      ensures items == RemoveById(old(items), productId)
      ensures storage == old(storage)[StorageKey := Serialize(items)] && Persisted()
      ensures notices == old(notices) + [Removed]
      ensures UniqueKeys(old(items)) ==> UniqueKeys(items)
      ensures AllPositive(old(items)) ==> AllPositive(items)
    {
      items := RemoveById(items, productId);
      notices := notices + [Removed];
      if UniqueKeys(old(items)) {
        RemovePreservesUnique(old(items), productId);
      }
      if AllPositive(old(items)) {
        RemovePreservesPositive(old(items), productId);
      }
      Save();
    }

    /** `updateQuantity`: set the quantity of every line of the product. The
        quantity is not checked, and no notice is shown. */
    method UpdateQuantity(productId: int, quantity: int)
      modifies this
      ensures items == SetQuantity(old(items), productId, quantity)
      ensures storage == old(storage)[StorageKey := Serialize(items)] && Persisted()
      ensures notices == old(notices)
      ensures UniqueKeys(old(items)) ==> UniqueKeys(items)
      ensures AllPositive(old(items)) && quantity >= 1 ==> AllPositive(items)
    {
      items := SetQuantity(items, productId, quantity);
      if UniqueKeys(old(items)) {
        SetQuantityPreservesUnique(old(items), productId, quantity);
      }
      Save();
    }

    /** `clearCart`. */
    method ClearCart()
      modifies this
      ensures items == []
      ensures storage == old(storage)[StorageKey := Serialize([])] && Persisted()
      ensures notices == old(notices) + [Cleared]
      ensures GetTotal() == 0 && GetItemCount() == 0
    {
      items := [];
      notices := notices + [Cleared];
      Save();
    }

    /** The load effect rerun when the signed-in user changes. The save effect
        follows only when the list was replaced, so a corrupt value leaves the
        key absent, and valid data leaves the storage exactly as it was. */
    method OnUserChange()
      modifies this
      ensures notices == old(notices)
      ensures StorageKey in old(storage) && old(storage)[StorageKey] != [] && Parse(old(storage)[StorageKey]).Some? ==>
                items == Parse(old(storage)[StorageKey]).value && storage == old(storage) && Persisted()
      ensures StorageKey in old(storage) && old(storage)[StorageKey] != [] && Parse(old(storage)[StorageKey]).None? ==>
                items == old(items) && storage == old(storage) - {StorageKey} && StorageKey !in storage
      ensures !(StorageKey in old(storage) && old(storage)[StorageKey] != []) ==>
                items == old(items) && storage == old(storage)
    {
      var loaded := LoadFromStorage();
      if loaded {
        Save();
      }
    }

    /** `getTotal`: the price of every line times its quantity, summed. */
    function GetTotal(): (r: int)
      reads this
      ensures items == [] ==> r == 0
      ensures (forall i :: 0 <= i < |items| ==> items[i].product.price >= 0) && AllPositive(items) ==> r >= 0
    {
      TotalNonNegative(items);
      Total(items)
    }

    /** `getItemCount`: the quantities summed, at least one per line while
        every quantity is at least 1. */
    function GetItemCount(): (r: int)
      reads this
      ensures items == [] ==> r == 0
      ensures AllPositive(items) ==> r >= |items|
    {
      ItemCountAtLeastLines(items);
      ItemCount(items)
    }
  }
}
