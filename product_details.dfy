/** The product page: its size, quantity and wishlist state, the guarded
    add-to-cart, the sizes it offers and its related products. The product
    itself and the list related products are drawn from come from the
    product service, so both are parameters here. */
module ProductDetails {
  import opened Seqs
  import opened Catalog
  import opened CartLines
  import opened CartStorage
  import opened CartContext

  const DefaultSizes: seq<string> := ["S", "M", "L", "XL", "XXL"]

  /** `product.sizes || [...]`: an absent list falls back to the default,
      while a present list is used as it is, even an empty one. */
  function OfferedSizes(sizes: Option<seq<string>>): (r: seq<string>)
    ensures sizes.None? ==> r == DefaultSizes && |r| == 5
    ensures sizes.Some? ==> r == sizes.value
  {
    match sizes
    case None => DefaultSizes
    case Some(s) => s
  }

  /** The page's filter: another product of exactly the same category. */
  function SameCategoryAs(current: Product): Product -> bool
  {
    (p: Product) => p.id != current.id && p.category == current.category
  }

  /** The first four other products of exactly the same category, in the
      order given. */
  function RelatedAmong(all: seq<Product>, current: Product): (r: seq<Product>)
    ensures |r| <= 4
    ensures forall p :: p in r ==> p in all && p.id != current.id && p.category == current.category
    ensures IsSubsequence(r, all)
    ensures |r| < 4 ==> forall p :: p in all && p.id != current.id && p.category == current.category ==> p in r
    ensures r <= Filter(all, SameCategoryAs(current))
    ensures |r| == if |Filter(all, SameCategoryAs(current))| < 4 then |Filter(all, SameCategoryAs(current))| else 4
  {
    var matches := Filter(all, SameCategoryAs(current));
    SubsequencePrefix(Take(matches, 4), matches, all);
    Take(matches, 4)
  }

  /** Exact category equality is stricter than the catalogue's substring
      test: every product related here is related there too. */
  lemma RelatedAreSubstringMatches(all: seq<Product>, current: Product)
    ensures forall p :: p in RelatedAmong(all, current) ==> Includes(p.category, current.category)
  {
    forall p | p in RelatedAmong(all, current)
      ensures Includes(p.category, current.category)
    {
      assert p.category == current.category;
      assert current.category <= p.category;
    }
  }

  class ProductDetailsPage {
    var selectedSize: string
    var quantity: int
    var isWishlisted: bool
    /** The route the page has sent the browser to, if any. */
    var redirect: Option<string>

    /** The quantity picker never shows less than 1. */
    ghost predicate Valid()
      reads this
    {
      quantity >= 1
    }

    constructor Open()
      ensures selectedSize == "" && quantity == 1 && !isWishlisted && redirect == None
      ensures Valid()
    {
      selectedSize := "";
      quantity := 1;
      isWishlisted := false;
      redirect := None;
    }

    /** The reset when the slug changes. The wishlist flag is not reset. */
    method OnSlugChange()
      modifies this
      ensures selectedSize == "" && quantity == 1
      ensures isWishlisted == old(isWishlisted) && redirect == old(redirect)
      ensures Valid()
    {
      selectedSize := "";
      quantity := 1;
    }

    method SelectSize(size: string)
      modifies this
      ensures selectedSize == size
      ensures quantity == old(quantity) && isWishlisted == old(isWishlisted) && redirect == old(redirect)
    {
      selectedSize := size;
    }

    /** `-`: `quantity > 1 && setQuantity(quantity - 1)`. */
    method DecreaseQuantity()
      modifies this
      ensures quantity == if old(quantity) > 1 then old(quantity) - 1 else old(quantity)
      ensures selectedSize == old(selectedSize) && isWishlisted == old(isWishlisted) && redirect == old(redirect)
      ensures old(Valid()) ==> Valid()
    {
      if quantity > 1 {
        quantity := quantity - 1;
      }
    }

    /** `+`: `setQuantity(quantity + 1)`. */
    method IncreaseQuantity()
      modifies this
      ensures quantity == old(quantity) + 1
      ensures selectedSize == old(selectedSize) && isWishlisted == old(isWishlisted) && redirect == old(redirect)
      ensures old(Valid()) ==> Valid()
    {
      quantity := quantity + 1;
    }

    /** `handleAddToCart`: refused while no size is selected; otherwise the
        picked quantity of the product in that size goes into the cart. */
    method HandleAddToCart(store: CartStore, product: Product) returns (added: bool)
      modifies store
      ensures added <==> selectedSize != ""
      ensures !added ==> store.items == old(store.items) && store.storage == old(store.storage)
                         && store.notices == old(store.notices)
      ensures added ==> store.items == AddLine(old(store.items), product, quantity, selectedSize)
                        && store.storage == old(store.storage)[StorageKey := Serialize(store.items)]
                        && store.notices == old(store.notices)
                                            + [if FindLine(old(store.items), (product.id, selectedSize)) == -1
                                               then Added else QuantityUpdated]
      ensures Valid() && AllPositive(old(store.items)) ==> AllPositive(store.items)
      ensures UniqueKeys(old(store.items)) ==> UniqueKeys(store.items)
      ensures forall x :: x in store.items ==> x.size != "" || x in old(store.items)
    {
      added := false;
      if selectedSize != "" {
        store.AddItem(product, quantity, selectedSize);
        added := true;
        forall x | x in store.items
          ensures x.size != "" || x in old(store.items)
        {
          AddedLineHasSize(old(store.items), product, quantity, selectedSize, x);
        }
      }
    }

    /** `toggleWishlist`: without a user the page goes to the sign-in route
        and the flag stays; with one the flag flips. */
    method ToggleWishlist(signedIn: bool)
      modifies this
      ensures signedIn ==> isWishlisted == !old(isWishlisted) && redirect == old(redirect)
      ensures !signedIn ==> isWishlisted == old(isWishlisted) && redirect == Some("/auth")
      ensures selectedSize == old(selectedSize) && quantity == old(quantity)
    {
      if !signedIn {
        redirect := Some("/auth");
        return;
      }
      isWishlisted := !isWishlisted;
    }
  }

  /** A line `addItem` creates or touches carries the size it was given. */
  lemma AddedLineHasSize(items: seq<CartItem>, product: Product, quantity: int, size: string, x: CartItem)
    requires x in AddLine(items, product, quantity, size)
    ensures x in items || x.size == size
  {
    var r := AddLine(items, product, quantity, size);
    var k :| 0 <= k < |r| && r[k] == x;
    var i := FindLine(items, (product.id, size));
    if i != -1 {
      if k != i {
        assert r[k] == items[k];
      }
    } else {
      if k < |items| {
        assert r[k] == items[k];
      }
    }
  }
}
