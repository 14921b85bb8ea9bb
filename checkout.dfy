/** The checkout page: its form schema, its redirects, the shaping of the
    cart into an order, and `onSubmit` with its `isSubmitting` flag. */
module Checkout {
  import opened Seqs
  import opened Catalog
  import opened CartLines
  import opened CartStorage
  import opened CartContext
  import opened Orders

  // ---------------------------------------------------------------------
  // The form

  datatype CheckoutForm = CheckoutForm(firstName: string, lastName: string, email: string, phone: string,
                                       address: string, city: string, state: string, postalCode: string,
                                       paymentMethod: string)

  const PaymentMethods: seq<string> := ["card", "upi", "cod"]

  /** The form's default values: empty fields, the user's e-mail if known,
      cash on delivery. */
  function DefaultForm(userEmail: Option<string>): (f: CheckoutForm)
    ensures f.paymentMethod == "cod" && f.paymentMethod in PaymentMethods
    ensures f.email == (match userEmail case Some(e) => e case None => "")
    ensures f.firstName == "" && f.lastName == "" && f.phone == "" && f.address == "" && f.city == ""
            && f.state == "" && f.postalCode == ""
  {
    CheckoutForm("", "", match userEmail case Some(e) => e case None => "", "", "", "", "", "", "cod")
  }

  /** `checkoutSchema`. `emailValid` stands for the schema's e-mail pattern,
      which is not part of this model. */
  predicate ValidCheckoutForm(f: CheckoutForm, emailValid: bool)
  {
    |f.firstName| >= 1 && |f.lastName| >= 1 && emailValid && |f.phone| >= 10
    && |f.address| >= 1 && |f.city| >= 1 && |f.state| >= 1 && |f.postalCode| >= 6
    && f.paymentMethod in PaymentMethods
  }

  /** The form as first shown cannot be submitted. */
  lemma DefaultFormRejected(userEmail: Option<string>, emailValid: bool)
    ensures !ValidCheckoutForm(DefaultForm(userEmail), emailValid)
  {
  }

  // ---------------------------------------------------------------------
  // The shipping address

  /** `${address}, ${city}, ${state} - ${postalCode}`. */
  function ShippingAddress(address: string, city: string, state: string, postalCode: string): string
  {
    address + ", " + city + ", " + state + " - " + postalCode
  }

  /** The address string as its three suffixes nested. */
  lemma AddressNesting(address: string, city: string, state: string, postalCode: string)
    ensures ShippingAddress(address, city, state, postalCode)
            == address + ", " + (city + ", " + (state + " - " + postalCode))
  {
  }

  /** Splits at the first comma, which must be followed by a space. */
  function SplitComma(s: string): (r: Option<(string, string)>)
    ensures r.Some? ==> ',' !in r.value.0 && s == r.value.0 + ", " + r.value.1
  {
    if ',' !in s then None
    else
      var i := IndexOf(s, ',');
      if i + 1 < |s| && s[i + 1] == ' ' then
        assert s == s[..i] + ", " + s[i + 2..];
        Some((s[..i], s[i + 2..]))
      else None
  }

  /** Splits at the first hyphen, which must have a space on either side. */
  function SplitDash(s: string): (r: Option<(string, string)>)
    ensures r.Some? ==> '-' !in r.value.0 && s == r.value.0 + " - " + r.value.1
  {
    if '-' !in s then None
    else
      var i := IndexOf(s, '-');
      if 1 <= i && s[i - 1] == ' ' && i + 1 < |s| && s[i + 1] == ' ' then
        assert s == s[..i - 1] + " - " + s[i + 2..];
        assert s[..i - 1] == s[..i][..i - 1];
        Some((s[..i - 1], s[i + 2..]))
      else None
  }

  lemma SplitCommaOf(x: string, y: string)
    requires ',' !in x
    ensures SplitComma(x + ", " + y) == Some((x, y))
  {
    var s := x + ", " + y;
    assert s == x + [','] + ([' '] + y);
    IndexOfAfter(x, ',', [' '] + y);
    assert s[..|x|] == x && s[|x| + 2..] == y;
  }

  lemma SplitDashOf(x: string, y: string)
    requires '-' !in x
    ensures SplitDash(x + " - " + y) == Some((x, y))
  {
    var s := x + " - " + y;
    assert s == (x + [' ']) + ['-'] + ([' '] + y);
    assert '-' !in x + [' '];
    IndexOfAfter(x + [' '], '-', [' '] + y);
    assert s[..|x|] == x && s[|x| + 3..] == y;
  }

  /** Reads an address string back into its four parts: up to the first
      comma, up to the next comma, and the rest split at the first hyphen. */
  function ParseShippingAddress(s: string): (r: Option<(string, string, string, string)>)
    ensures r.Some? ==> ShippingAddress(r.value.0, r.value.1, r.value.2, r.value.3) == s
  {
    match SplitComma(s)
    case None => None
    case Some((address, rest)) =>
      match SplitComma(rest)
      case None => None
      case Some((city, tail)) =>
        match SplitDash(tail)
        case None => None
        case Some((state, postalCode)) =>
          AddressNesting(address, city, state, postalCode);
          Some((address, city, state, postalCode))
  }

  /** The four parts can be read back from the address string when the
      address and city hold no comma and the state holds no hyphen. */
  lemma ShippingAddressRoundTrip(address: string, city: string, state: string, postalCode: string)
    requires ',' !in address && ',' !in city && '-' !in state
    ensures ParseShippingAddress(ShippingAddress(address, city, state, postalCode))
            == Some((address, city, state, postalCode))
  {
    var tail := state + " - " + postalCode;
    var rest := city + ", " + tail;
    AddressNesting(address, city, state, postalCode);
    SplitCommaOf(address, rest);
    SplitCommaOf(city, tail);
    SplitDashOf(state, postalCode);
  }

  /** Without that restriction the string does not determine its parts. */
  lemma ShippingAddressAmbiguous()
    ensures ShippingAddress("12, MG Road", "Pune", "MH", "411001")
            == ShippingAddress("12", "MG Road, Pune", "MH", "411001")
  {
  }

  // ---------------------------------------------------------------------
  // product_id: item.product.id.toString()

  function Digit(d: int): (c: char)
    requires 0 <= d < 10
    ensures '0' <= c <= '9'
  {
    (48 + d) as char
  }

  predicate IsDigits(s: string)
  {
    |s| >= 1 && forall i :: 0 <= i < |s| ==> '0' <= s[i] <= '9'
  }

  /** The decimal digits of `n`. */
  function NatToString(n: nat): (s: string)
    ensures IsDigits(s)
    decreases n
  {
    if n < 10 then [Digit(n)] else NatToString(n / 10) + [Digit(n % 10)]
  }

  /** `Number.prototype.toString()` on an integer. */
  function IntToString(n: int): (s: string)
    ensures |s| >= 1
  {
    if n < 0 then "-" + NatToString(-n) else NatToString(n)
  }

  function ParseDigits(s: string): nat
    requires IsDigits(s)
    decreases |s|
  {
    var last := (s[|s| - 1] as int) - 48;
    if |s| == 1 then last
    else
      assert IsDigits(s[..|s| - 1]) by {
        assert forall i :: 0 <= i < |s| - 1 ==> s[..|s| - 1][i] == s[i];
      }
      ParseDigits(s[..|s| - 1]) * 10 + last
  }

  function ParseInt(s: string): Option<int>
  {
    if |s| >= 2 && s[0] == '-' && IsDigits(s[1..]) then
      var magnitude: int := ParseDigits(s[1..]);
      Some(-magnitude)
    else if IsDigits(s) then Some(ParseDigits(s) as int)
    else None
  }

  lemma {:induction false} ParseNatToString(n: nat)
    ensures ParseDigits(NatToString(n)) == n
    decreases n
  {
    if n >= 10 {
      var s := NatToString(n);
      assert s[..|s| - 1] == NatToString(n / 10);
      ParseNatToString(n / 10);
    }
  }

  /** The product id string reads back as the id, so distinct ids give
      distinct strings. */
  lemma IntToStringRoundTrip(n: int)
    ensures ParseInt(IntToString(n)) == Some(n)
  {
    var s := IntToString(n);
    if n < 0 {
      assert s[1..] == NatToString(-n);
      ParseNatToString(-n);
    } else {
      assert s == NatToString(n);
      assert '0' <= s[0] <= '9';
      ParseNatToString(n);
    }
  }

  lemma IntToStringInjective(a: int, b: int)
    requires IntToString(a) == IntToString(b)
    ensures a == b
  {
    IntToStringRoundTrip(a);
    IntToStringRoundTrip(b);
  }

  // ---------------------------------------------------------------------
  // Cart to order

  /** `items.map(item => ({product_id: item.product.id.toString(), quantity,
      size, price: item.product.price}))`. */
  function OrderItemsFromCart(items: seq<CartItem>): (r: seq<OrderItem>)
    ensures |r| == |items|
    ensures forall i :: 0 <= i < |items| ==>
              ParseInt(r[i].productId) == Some(items[i].product.id) && r[i].quantity == items[i].quantity
              && r[i].size == items[i].size && r[i].price == items[i].product.price
  {
    forall i | 0 <= i < |items| {
      IntToStringRoundTrip(items[i].product.id);
    }
    seq(|items|, i requires 0 <= i < |items| =>
      OrderItem(IntToString(items[i].product.id), items[i].quantity, items[i].size, items[i].product.price))
  }

  function ItemAmount(x: OrderItem): int
  {
    x.price * x.quantity
  }

  /** Σ price × quantity over the submitted items. */
  function ItemsAmount(items: seq<OrderItem>): int
  {
    Sum(items, ItemAmount)
  }

  /** The submitted items add up to the cart total. */
  lemma {:induction false} OrderItemsMatchTotal(items: seq<CartItem>)
    ensures ItemsAmount(OrderItemsFromCart(items)) == Total(items)
    decreases |items|
  {
    if items != [] {
      assert OrderItemsFromCart(items)[1..] == OrderItemsFromCart(items[1..]);
      OrderItemsMatchTotal(items[1..]);
    }
  }

  /** The argument `onSubmit` passes to `createOrder`. */
  function BuildOrderInput(items: seq<CartItem>, f: CheckoutForm): (r: OrderInput)
    ensures r.totalAmount == Total(items) == ItemsAmount(r.items)
    ensures r.shippingAddress == ShippingAddress(f.address, f.city, f.state, f.postalCode)
    ensures r.paymentMethod == f.paymentMethod
    ensures |r.items| == |items|
  {
    OrderItemsMatchTotal(items);
    OrderInput(Total(items), ShippingAddress(f.address, f.city, f.state, f.postalCode), f.paymentMethod,
               OrderItemsFromCart(items))
  }

  // ---------------------------------------------------------------------
  // The page

  /** Where the page sends the browser instead of showing the form: to sign
      in once the session is known and there is none, else home for an
      empty cart. */
  function CheckoutRedirect(authLoading: bool, signedIn: bool, cartEmpty: bool): (r: Option<string>)
    ensures r == Some("/auth") <==> !authLoading && !signedIn
    ensures r == Some("/") <==> (authLoading || signedIn) && cartEmpty
    ensures r.None? <==> (authLoading || signedIn) && !cartEmpty
  {
    if !authLoading && !signedIn then Some("/auth")
    else if cartEmpty then Some("/")
    else None
  }

  datatype CheckoutNotice = OrderPlaced | OrderFailed

  class CheckoutPage {
    var isSubmitting: bool
    var navigatedTo: Option<string>
    var notices: seq<CheckoutNotice>

    constructor Open()
      ensures !isSubmitting && navigatedTo == None && notices == []
    {
      isSubmitting := false;
      navigatedTo := None;
      notices := [];
    }

    /** The submit button is disabled while a submission runs, and the schema
        must accept the form; only then does `onSubmit` start and raise the
        flag. */
    method BeginSubmit(values: CheckoutForm, emailValid: bool) returns (started: bool)
      modifies this
      ensures started <==> !old(isSubmitting) && ValidCheckoutForm(values, emailValid)
      ensures isSubmitting == (old(isSubmitting) || started)
      ensures navigatedTo == old(navigatedTo) && notices == old(notices)
    {
      started := !isSubmitting && ValidCheckoutForm(values, emailValid);
      if started {
        isSubmitting := true;
      }
    }

    /** After `createOrder` settles: the cart is cleared and the page goes to
        the orders list only on success; the flag drops either way. */
    method Settle(store: CartStore, result: CreateResult)
      requires isSubmitting
      modifies this, store
      ensures !isSubmitting
      ensures result.Created? ==>
                store.items == [] && store.storage == old(store.storage)[StorageKey := Serialize([])]
                && store.notices == old(store.notices) + [Cleared]
                && navigatedTo == Some("/orders") && notices == old(notices) + [OrderPlaced]
      ensures !result.Created? ==>
                store.items == old(store.items) && store.storage == old(store.storage)
                && store.notices == old(store.notices)
                && navigatedTo == old(navigatedTo) && notices == old(notices) + [OrderFailed]
    {
      if result.Created? {
        store.ClearCart();
        notices := notices + [OrderPlaced];
        navigatedTo := Some("/orders");
      } else {
        notices := notices + [OrderFailed];
      }
      isSubmitting := false;
    }

    /** `onSubmit`, reachable only while the page shows its form. `user` is
        what `auth.getUser` answers inside `createOrder`; the server picks
        `newId`; the outcomes of the two inserts are given. */
    method Submit(store: CartStore, backend: Backend, authLoading: bool, signedIn: bool, user: Option<User>,
                  values: CheckoutForm, emailValid: bool, newId: string, orderInsert: Outcome,
                  itemsInsert: Outcome) returns (result: Option<CreateResult>)
      requires CheckoutRedirect(authLoading, signedIn, store.items == []) == None
      modifies this, store, backend
      ensures result.None? <==> old(isSubmitting) || !ValidCheckoutForm(values, emailValid)
      ensures result.None? ==>
                isSubmitting == old(isSubmitting) && store.items == old(store.items)
                && store.storage == old(store.storage)
                && backend.orders == old(backend.orders) && backend.orderItems == old(backend.orderItems)
      ensures result.Some? ==> !isSubmitting
      ensures result.Some? ==> (result.value == NotSignedIn <==> user.None?)
      ensures result.Some? && user.Some? ==>
                (result.value == OrderInsertFailed <==> orderInsert == Errs || newId in OrderIds(old(backend.orders)))
      ensures result.Some? && user.Some? && orderInsert == Answers && newId !in OrderIds(old(backend.orders)) ==>
                (result.value.Created? <==> itemsInsert == Answers)
      ensures (result.Some? && user.Some? && orderInsert == Answers && newId !in OrderIds(old(backend.orders))
               && itemsInsert == Errs) ==> result.value == ItemsInsertFailed
      ensures result.Some? && result.value.Created? ==>
                (user.Some? &&
                var input := BuildOrderInput(old(store.items), values);
                result.value.order == PendingOrder(newId, user.value, input)
                && result.value.order.totalAmount == ItemsAmount(input.items)
                && backend.orders == old(backend.orders) + [result.value.order]
                && backend.orderItems == old(backend.orderItems) + OrderItemRows(newId, input.items)
                && |OrderItemRows(newId, input.items)| == |old(store.items)| > 0
                && store.items == [] && navigatedTo == Some("/orders"))
      ensures result.Some? && !result.value.Created? ==>
                store.items == old(store.items) && store.storage == old(store.storage)
                && navigatedTo == old(navigatedTo) && notices == old(notices) + [OrderFailed]
      ensures result == Some(ItemsInsertFailed) ==>
                (user.Some?
                 && backend.orders == old(backend.orders)
                                      + [PendingOrder(newId, user.value, BuildOrderInput(old(store.items), values))]
                 && backend.orderItems == old(backend.orderItems))
      ensures old(backend.Valid()) ==> backend.Valid()
    {
      var started := BeginSubmit(values, emailValid);
      if !started {
        return None;
      }
      var input := BuildOrderInput(store.items, values);
      var r := CreateOrder(backend, user, input, newId, orderInsert, itemsInsert);
      Settle(store, r);
      return Some(r);
    }
  }
}
