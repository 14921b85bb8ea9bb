/** The cart's line list and the pure updates the cart store applies to it:
    merge-or-append on `(product id, size)`, removal and quantity update on
    the product id alone, and the two derived sums. */
module CartLines {
  import opened Seqs
  import opened Catalog

  /** One cart line. `quantity` is unconstrained here: `updateQuantity` does
      not check it, and the UI keeps it at least 1. */
  datatype CartItem = CartItem(product: Product, quantity: int, size: string)

  /** The merge key of a line. */
  function Key(item: CartItem): (int, string)
  {
    (item.product.id, item.size)
  }

  /** No two lines share a merge key. */
  ghost predicate UniqueKeys(items: seq<CartItem>)
  {
    forall i, j :: 0 <= i < j < |items| ==> Key(items[i]) != Key(items[j])
  }

  /** Every line has a quantity of at least 1. */
  ghost predicate AllPositive(items: seq<CartItem>)
  {
    forall i :: 0 <= i < |items| ==> items[i].quantity >= 1
  }

  /** `i` is the first line whose key is `key`. */
  ghost predicate IsFirstMatch(items: seq<CartItem>, key: (int, string), i: int)
  {
    0 <= i < |items| && Key(items[i]) == key && forall j :: 0 <= j < i ==> Key(items[j]) != key
  }

  ghost predicate NoMatch(items: seq<CartItem>, key: (int, string))
  {
    forall j :: 0 <= j < |items| ==> Key(items[j]) != key
  }

  /** `findIndex` on the merge key: the first matching line, or -1. */
  function FindLine(items: seq<CartItem>, key: (int, string)): (i: int)
    ensures i == -1 || IsFirstMatch(items, key, i)
    ensures i == -1 <==> NoMatch(items, key)
    decreases |items|
  {
    if items == [] then -1
    else if Key(items[0]) == key then 0
    else
      var k := FindLine(items[1..], key);
      if k == -1 then -1 else k + 1
  }

  /** The list after `addItem(product, quantity, size)`. */
  function AddLine(items: seq<CartItem>, product: Product, quantity: int, size: string): (r: seq<CartItem>)
    ensures forall i :: IsFirstMatch(items, (product.id, size), i) ==>
              |r| == |items| && r[i] == items[i].(quantity := items[i].quantity + quantity)
              && forall j :: 0 <= j < |items| && j != i ==> r[j] == items[j]
    ensures NoMatch(items, (product.id, size)) ==> r == items + [CartItem(product, quantity, size)]
  {
    var i := FindLine(items, (product.id, size));
    if i != -1 then items[i := items[i].(quantity := items[i].quantity + quantity)]
    else items + [CartItem(product, quantity, size)]
  }

  /** The list after `removeItem(productId)`. */
  function RemoveById(items: seq<CartItem>, productId: int): (r: seq<CartItem>)
    ensures forall x :: x in r <==> x in items && x.product.id != productId
    ensures forall x :: multiset(r)[x] == if x.product.id != productId then multiset(items)[x] else 0
    ensures IsSubsequence(r, items)
  {
    Filter(items, (x: CartItem) => x.product.id != productId)
  }

  /** The list after `updateQuantity(productId, quantity)`. */
  function SetQuantity(items: seq<CartItem>, productId: int, quantity: int): (r: seq<CartItem>)
    ensures |r| == |items|
    ensures forall i :: 0 <= i < |items| ==>
              r[i].product == items[i].product && r[i].size == items[i].size
              && r[i].quantity == (if items[i].product.id == productId then quantity else items[i].quantity)
  {
    seq(|items|, i requires 0 <= i < |items| =>
      if items[i].product.id == productId then items[i].(quantity := quantity) else items[i])
  }

  function LineTotal(x: CartItem): int
  {
    x.product.price * x.quantity
  }

  function LineQuantity(x: CartItem): int
  {
    x.quantity
  }

  /** `getTotal`. */
  function Total(items: seq<CartItem>): int
  {
    Sum(items, LineTotal)
  }

  /** `getItemCount`. */
  function ItemCount(items: seq<CartItem>): int
  {
    Sum(items, LineQuantity)
  }

  // ---------------------------------------------------------------------
  // Merge behaviour of addItem

  /** Adding under a key already present leaves the line count alone and
      puts the whole added quantity on that line, keeping its product. */
  lemma AddExisting(items: seq<CartItem>, product: Product, quantity: int, size: string, i: int)
    requires IsFirstMatch(items, (product.id, size), i)
    ensures var r := AddLine(items, product, quantity, size);
            |r| == |items| && r[i].quantity == items[i].quantity + quantity
            && r[i].product == items[i].product
            && Total(r) == Total(items) + items[i].product.price * quantity
            && ItemCount(r) == ItemCount(items) + quantity
  {
    var merged := items[i].(quantity := items[i].quantity + quantity);
    MergeAt(items, product, quantity, size, i);
    var r := items[i := merged];
    SumUpdate(items, i, merged, LineTotal);
    SumUpdate(items, i, merged, LineQuantity);
    assert Total(r) == Total(items) - LineTotal(items[i]) + LineTotal(merged);
    MulAddRight(items[i].product.price, items[i].quantity, quantity);
  }

  lemma MulAddRight(a: int, b: int, c: int)
    ensures a * (b + c) == a * b + a * c
  {
  }

  lemma MergeAt(items: seq<CartItem>, product: Product, quantity: int, size: string, i: int)
    requires IsFirstMatch(items, (product.id, size), i)
    ensures AddLine(items, product, quantity, size) == items[i := items[i].(quantity := items[i].quantity + quantity)]
  {
  }

  /** Adding under a new key appends one line at the end. */
  lemma AddNew(items: seq<CartItem>, product: Product, quantity: int, size: string)
    requires NoMatch(items, (product.id, size))
    ensures Total(AddLine(items, product, quantity, size)) == Total(items) + product.price * quantity
    ensures ItemCount(AddLine(items, product, quantity, size)) == ItemCount(items) + quantity
  {
    var x := CartItem(product, quantity, size);
    SumConcat(items, [x], LineTotal);
    SumConcat(items, [x], LineQuantity);
  }

  /** Whichever branch `addItem` takes, the item count grows by `quantity`. */
  lemma AddItemCount(items: seq<CartItem>, product: Product, quantity: int, size: string)
    ensures ItemCount(AddLine(items, product, quantity, size)) == ItemCount(items) + quantity
  {
    var i := FindLine(items, (product.id, size));
    if i == -1 {
      AddNew(items, product, quantity, size);
    } else {
      AddExisting(items, product, quantity, size, i);
    }
  }

  lemma AddPreservesUnique(items: seq<CartItem>, product: Product, quantity: int, size: string)
    requires UniqueKeys(items)
    ensures UniqueKeys(AddLine(items, product, quantity, size))
  {
  }

  lemma AddPreservesPositive(items: seq<CartItem>, product: Product, quantity: int, size: string)
    requires AllPositive(items) && quantity >= 1
    ensures AllPositive(AddLine(items, product, quantity, size))
  {
    var i := FindLine(items, (product.id, size));
    var r := AddLine(items, product, quantity, size);
    if i != -1 {
      forall j | 0 <= j < |r| ensures r[j].quantity >= 1 {
        if j != i { assert r[j] == items[j]; }
      }
    }
  }

  /** `add(P, 2, "M")` then `add(P, 3, "M")` gives one line of 5. */
  lemma AddSameKeyTwice(p: Product)
    ensures AddLine(AddLine([], p, 2, "M"), p, 3, "M") == [CartItem(p, 5, "M")]
  {
    assert IsFirstMatch([CartItem(p, 2, "M")], (p.id, "M"), 0);
  }

  /** `add(P, 1, "M")` then `add(P, 1, "L")` gives two lines. */
  lemma AddTwoSizes(p: Product)
    ensures AddLine(AddLine([], p, 1, "M"), p, 1, "L") == [CartItem(p, 1, "M"), CartItem(p, 1, "L")]
  {
    assert "M" != "L";
    assert NoMatch([CartItem(p, 1, "M")], (p.id, "L"));
  }

  // ---------------------------------------------------------------------
  // Remove and update match on the product id alone

  lemma {:induction false} SubsequenceUnique(sub: seq<CartItem>, s: seq<CartItem>)
    requires IsSubsequence(sub, s) && UniqueKeys(s)
    ensures UniqueKeys(sub)
    decreases |s|
  {
    if sub != [] {
      assert UniqueKeys(s[1..]) by {
        forall i, j | 0 <= i < j < |s[1..]| ensures Key(s[1..][i]) != Key(s[1..][j]) {
          assert s[1..][i] == s[i + 1] && s[1..][j] == s[j + 1];
        }
      }
      if sub[0] == s[0] {
        SubsequenceUnique(sub[1..], s[1..]);
        SubsequenceMembers(sub[1..], s[1..]);
        forall j | 0 < j < |sub| ensures Key(sub[0]) != Key(sub[j]) {
          assert sub[j] == sub[1..][j - 1];
          assert sub[j] in sub[1..];
          assert sub[j] in s[1..];
          var k :| 0 <= k < |s[1..]| && s[1..][k] == sub[j];
          assert s[k + 1] == sub[j];
        }
        forall i, j | 0 < i < j < |sub| ensures Key(sub[i]) != Key(sub[j]) {
          assert sub[i] == sub[1..][i - 1] && sub[j] == sub[1..][j - 1];
        }
      } else {
        SubsequenceUnique(sub, s[1..]);
      }
    }
  }

  lemma RemovePreservesUnique(items: seq<CartItem>, productId: int)
    requires UniqueKeys(items)
    ensures UniqueKeys(RemoveById(items, productId))
  {
    SubsequenceUnique(RemoveById(items, productId), items);
  }

  lemma RemovePreservesPositive(items: seq<CartItem>, productId: int)
    requires AllPositive(items)
    ensures AllPositive(RemoveById(items, productId))
  {
    var r := RemoveById(items, productId);
    forall i | 0 <= i < |r| ensures r[i].quantity >= 1 {
      assert r[i] in items;
    }
  }

  /** Removing by id drops every size variant of that product. */
  lemma RemoveDropsAllSizes(items: seq<CartItem>, productId: int)
    ensures forall x :: x in RemoveById(items, productId) ==> x.product.id != productId
    ensures forall i :: 0 <= i < |items| && items[i].product.id != productId ==> items[i] in RemoveById(items, productId)
  {
  }

  lemma SetQuantityPreservesUnique(items: seq<CartItem>, productId: int, quantity: int)
    requires UniqueKeys(items)
    ensures UniqueKeys(SetQuantity(items, productId, quantity))
  {
    var r := SetQuantity(items, productId, quantity);
    assert forall i :: 0 <= i < |r| ==> Key(r[i]) == Key(items[i]);
  }

  /** Every size variant of the product ends up with the same quantity. */
  lemma SetQuantitySizeVariants(items: seq<CartItem>, productId: int, quantity: int)
    ensures forall i, j :: 0 <= i < |items| && 0 <= j < |items|
              && items[i].product.id == productId && items[j].product.id == productId
              ==> SetQuantity(items, productId, quantity)[i].quantity
                  == SetQuantity(items, productId, quantity)[j].quantity
  {
  }

  /** Splitting the lines by product id splits the total. */
  lemma TotalSplitsById(items: seq<CartItem>, productId: int)
    ensures Total(items) == Total(RemoveById(items, productId))
                            + Total(Filter(items, (x: CartItem) => x.product.id == productId))
  {
    SumSplitsByFilter(items, (x: CartItem) => x.product.id != productId,
                      (x: CartItem) => x.product.id == productId, LineTotal);
  }

  /** With no negative price and every quantity at least 1, the total is not negative. */
  lemma {:induction false} TotalNonNegative(items: seq<CartItem>)
    ensures (forall i :: 0 <= i < |items| ==> items[i].product.price >= 0) && AllPositive(items) ==> Total(items) >= 0
    decreases |items|
  {
    if items != [] && (forall i :: 0 <= i < |items| ==> items[i].product.price >= 0) && AllPositive(items) {
      assert forall i :: 0 <= i < |items[1..]| ==> items[1..][i] == items[i + 1];
      TotalNonNegative(items[1..]);
      assert LineTotal(items[0]) >= 0 by {
        MulNonNegative(items[0].product.price, items[0].quantity);
      }
    }
  }

  lemma MulNonNegative(a: int, b: int)
    requires a >= 0 && b >= 0
    ensures a * b >= 0
  {
  }

  /** While every quantity is at least 1 the item count is at least the
      number of lines. */
  lemma {:induction false} ItemCountAtLeastLines(items: seq<CartItem>)
    ensures AllPositive(items) ==> ItemCount(items) >= |items|
    decreases |items|
  {
    if items != [] && AllPositive(items) {
      assert forall i :: 0 <= i < |items[1..]| ==> items[1..][i] == items[i + 1];
      ItemCountAtLeastLines(items[1..]);
    }
  }

  /** `clearCart` leaves nothing to pay for and nothing to count. */
  lemma EmptyCartSums()
    ensures Total([]) == 0 && ItemCount([]) == 0
  {
  }

  /** The item count sums quantities; it is not the number of lines. */
  lemma ItemCountIsNotLineCount(p: Product)
    ensures ItemCount([CartItem(p, 3, "M")]) == 3 != |[CartItem(p, 3, "M")]|
  {
    SumCons(CartItem(p, 3, "M"), [], LineQuantity);
    assert [CartItem(p, 3, "M")] == [CartItem(p, 3, "M")] + [];
  }

  // ---------------------------------------------------------------------
  // A run of additions

  datatype Addition = Addition(product: Product, quantity: int, size: string)

  function AdditionKey(a: Addition): (int, string)
  {
    (a.product.id, a.size)
  }

  /** The list after the additions, in order. */
  function AddAll(items: seq<CartItem>, adds: seq<Addition>): seq<CartItem>
    decreases |adds|
  {
    if adds == [] then items
    else AddAll(AddLine(items, adds[0].product, adds[0].quantity, adds[0].size), adds[1..])
  }

  function KeysOf(items: seq<CartItem>): (ks: seq<(int, string)>)
    ensures |ks| == |items| && forall i :: 0 <= i < |items| ==> ks[i] == Key(items[i])
  {
    seq(|items|, i requires 0 <= i < |items| => Key(items[i]))
  }

  function AppendNew(ks: seq<(int, string)>, k: (int, string)): seq<(int, string)>
  {
    if k in ks then ks else ks + [k]
  }

  /** The keys of `adds` appended to `ks` in first-occurrence order, each once. */
  function DistinctKeys(ks: seq<(int, string)>, adds: seq<Addition>): seq<(int, string)>
    decreases |adds|
  {
    if adds == [] then ks else DistinctKeys(AppendNew(ks, AdditionKey(adds[0])), adds[1..])
  }

  /** The total quantity added under `key`. */
  function AddedFor(adds: seq<Addition>, key: (int, string)): int
    decreases |adds|
  {
    if adds == [] then 0
    else (if AdditionKey(adds[0]) == key then adds[0].quantity else 0) + AddedFor(adds[1..], key)
  }

  /** The total quantity on lines with key `key`. */
  function QuantityFor(items: seq<CartItem>, key: (int, string)): int
  {
    Sum(items, (x: CartItem) => if Key(x) == key then x.quantity else 0)
  }

  lemma AddLineKeys(items: seq<CartItem>, product: Product, quantity: int, size: string)
    ensures KeysOf(AddLine(items, product, quantity, size)) == AppendNew(KeysOf(items), (product.id, size))
  {
    var k := (product.id, size);
    var i := FindLine(items, k);
    if i != -1 {
      assert KeysOf(items)[i] == k;
    } else {
      assert k !in KeysOf(items);
    }
  }

  lemma AddLineQuantity(items: seq<CartItem>, product: Product, quantity: int, size: string, key: (int, string))
    ensures QuantityFor(AddLine(items, product, quantity, size), key)
            == QuantityFor(items, key) + (if key == (product.id, size) then quantity else 0)
  {
    var f := (x: CartItem) => if Key(x) == key then x.quantity else 0;
    var i := FindLine(items, (product.id, size));
    if i != -1 {
      var merged := items[i].(quantity := items[i].quantity + quantity);
      MergeAt(items, product, quantity, size, i);
      SumUpdate(items, i, merged, f);
      assert Key(merged) == Key(items[i]) == (product.id, size);
      assert f(merged) == f(items[i]) + (if key == (product.id, size) then quantity else 0);
    } else {
      var line := CartItem(product, quantity, size);
      assert AddLine(items, product, quantity, size) == items + [line];
      SumConcat(items, [line], f);
      assert Sum([line], f) == f(line) + Sum([line][1..], f);
    }
  }

  /** The lines' keys are the distinct added keys in first-occurrence order,
      so the line count is the number of distinct keys. */
  lemma {:induction false} AddAllKeys(items: seq<CartItem>, adds: seq<Addition>)
    ensures KeysOf(AddAll(items, adds)) == DistinctKeys(KeysOf(items), adds)
    decreases |adds|
  {
    if adds != [] {
      AddLineKeys(items, adds[0].product, adds[0].quantity, adds[0].size);
      AddAllKeys(AddLine(items, adds[0].product, adds[0].quantity, adds[0].size), adds[1..]);
    }
  }

  /** Each key's quantity is what was already there plus everything added
      under that key. */
  lemma {:induction false} AddAllQuantity(items: seq<CartItem>, adds: seq<Addition>, key: (int, string))
    ensures QuantityFor(AddAll(items, adds), key) == QuantityFor(items, key) + AddedFor(adds, key)
    decreases |adds|
  {
    if adds != [] {
      AddLineQuantity(items, adds[0].product, adds[0].quantity, adds[0].size, key);
      AddAllQuantity(AddLine(items, adds[0].product, adds[0].quantity, adds[0].size), adds[1..], key);
    }
  }

  lemma {:induction false} AddAllPreservesUnique(items: seq<CartItem>, adds: seq<Addition>)
    requires UniqueKeys(items)
    ensures UniqueKeys(AddAll(items, adds))
    decreases |adds|
  {
    if adds != [] {
      AddPreservesUnique(items, adds[0].product, adds[0].quantity, adds[0].size);
      AddAllPreservesUnique(AddLine(items, adds[0].product, adds[0].quantity, adds[0].size), adds[1..]);
    }
  }

  /** From an empty cart: one line per distinct key, holding the sum of the
      quantities added under it. */
  lemma AdditionsFromEmpty(adds: seq<Addition>, key: (int, string))
    ensures UniqueKeys(AddAll([], adds))
    ensures |AddAll([], adds)| == |DistinctKeys([], adds)|
    ensures QuantityFor(AddAll([], adds), key) == AddedFor(adds, key)
  {
    AddAllPreservesUnique([], adds);
    AddAllKeys([], adds);
    assert KeysOf([]) == [];
    AddAllQuantity([], adds, key);
  }
}
