/** The cart page: loading the cart and the details of its products, the
    order summary (subtotal, shipping, tax, total), changing a line's quantity
    and removing a line, after which the navigation bars are told the new
    number of lines. Prices are whole amounts of dong. */
module Cart {
  import opened Js
  import opened Http
  import opened Session

  /** A cart line as the page keeps it. */
  datatype Line = Line(id: string, productId: string, name: string, image: string,
                       quantity: int, price: int)

  /** A cart item as the cart service returns it; `itemId` is `_id`, empty when absent. */
  datatype ApiItem = ApiItem(itemId: string, productId: string, quantity: int, price: int)

  /** The product details used for a line; an absent image field is the empty string. */
  datatype ProductDetail = ProductDetail(name: string, imageUrl: string, avatarUrl: string)

  const PlaceholderImage: string := "https://placehold.co/96x96/e2e8f0/333?text=Image"

  /** One line from its cart item and its product's details. */
  function ToLine(item: ApiItem, detail: ProductDetail): (l: Line)
    ensures l.id == (if item.itemId != "" then item.itemId else item.productId)
    ensures l.productId == item.productId && l.name == detail.name
    ensures l.quantity == item.quantity && l.price == item.price
    ensures l.image == FirstTruthy(detail.imageUrl, detail.avatarUrl, PlaceholderImage)
  {
    Line(if item.itemId != "" then item.itemId else item.productId,
         item.productId, detail.name,
         FirstTruthy(detail.imageUrl, detail.avatarUrl, PlaceholderImage),
         item.quantity, item.price)
  }

  /** The answer of the cart request: a failure, or a body whose `items` is
      given when it is an array. */
  datatype CartAnswer = CartFailed(failure: Failure) | CartBody(items: Option<seq<ApiItem>>)

  /** The answer of one product-detail request: a failure, or a body whose
      `data` is given when present. */
  datatype DetailAnswer = DetailFailed(failure: Failure) | DetailBody(data: Option<ProductDetail>)

  /** The outcome of loading the page. */
  datatype Load =
    | LoginRedirect(store: Store)
    | Loaded(lines: seq<Line>)
    | LoadFailed(message: string)

  /** The load `catch`: server text, the network text, or the page's default;
      exceptions the page raises itself fall back to the default. */
  function LoadMessage(e: Failure): string {
    match e
    case Rejected(s, m) => ServerMessage(s, m)
    case Unreachable(_) => NetworkMessage
    case Thrown(_) => "Could not fetch cart."
  }

  /** A failed detail request, if any; the model takes the first in cart order. */
  function FirstDetailFailure(details: seq<DetailAnswer>): (r: Option<Failure>)
    ensures r.None? <==> forall i :: 0 <= i < |details| ==> details[i].DetailBody?
    ensures r.Some? ==> exists i :: 0 <= i < |details| && details[i] == DetailFailed(r.value)
  {
    if details == [] then None
    else if details[0].DetailFailed? then Some(details[0].failure)
    else
      var r := FirstDetailFailure(details[1..]);
      if r.Some? then
        ghost var i :| 0 <= i < |details[1..]| && details[1..][i] == DetailFailed(r.value);
        assert details[i + 1] == DetailFailed(r.value);
        r
      else r
  }

  /** The lines built from the cart's items and their details, position by position. */
  function ToLines(items: seq<ApiItem>, details: seq<ProductDetail>): (r: seq<Line>)
    requires |details| == |items|
    ensures |r| == |items|
    ensures forall i :: 0 <= i < |r| ==> r[i] == ToLine(items[i], details[i])
  {
    seq(|items|, i requires 0 <= i < |items| => ToLine(items[i], details[i]))
  }

  /** Every detail request answered with a body that carries `data`. */
  predicate AllArrived(details: seq<DetailAnswer>) {
    forall i :: 0 <= i < |details| ==> details[i].DetailBody? && details[i].data.Some?
  }

  /** The details carried by answers that all arrived, in request order. */
  function Arrived(details: seq<DetailAnswer>): (r: seq<ProductDetail>)
    requires AllArrived(details)
    ensures |r| == |details|
    ensures forall i :: 0 <= i < |details| ==> details[i] == DetailBody(Some(r[i]))
  {
    seq(|details|, i requires 0 <= i < |details| => details[i].data.value)
  }

  /** `fetchCart`. Without a session the page goes to the login page, forgetting
      unreadable data; a cart that is not an array is an error; an empty cart
      needs no detail request; otherwise every detail must arrive and carry
      `data`, and the lines keep the cart's order. */
  function FetchCart(store: Store, cart: CartAnswer, details: seq<DetailAnswer>): (r: Load)
    requires cart.CartBody? && cart.items.Some? ==> |details| == |cart.items.value|
    ensures r.LoginRedirect? <==> !store.auth.Stored?
    ensures r.LoginRedirect? ==>
              (if store.auth.Absent? then r.store == store else r.store == ForgetSession(store))
    ensures r.Loaded? ==>
              && store.auth.Stored? && cart.CartBody? && cart.items.Some? && AllArrived(details)
              && r.lines == ToLines(cart.items.value, Arrived(details))
    ensures store.auth.Stored? && cart.CartBody? && cart.items.Some? && AllArrived(details) ==>
              r == Loaded(ToLines(cart.items.value, Arrived(details)))
    ensures store.auth.Stored? && !r.Loaded? ==> r.LoadFailed? && r.message != ""
  {
    match ReadSession(store.auth)
    case LoggedOut => LoginRedirect(store)
    case Unreadable(_) => LoginRedirect(ForgetSession(store))
    case Token(_) =>
      match cart
      case CartFailed(e) => LoadFailed(LoadMessage(e))
      case CartBody(None) => LoadFailed(LoadMessage(Thrown("Invalid cart data received from server.")))
      case CartBody(Some(items)) =>
        if items == [] then Loaded([])
        else match FirstDetailFailure(details)
          case Some(e) => LoadFailed(LoadMessage(e))
          case None =>
            if !AllArrived(details) then
              LoadFailed(LoadMessage(Thrown("Cannot read properties of undefined")))
            else
              Loaded(ToLines(items, Arrived(details)))
  }

  // ----- Order summary -----

  /** No line has a negative price or quantity. */
  predicate NoNegativeLine(lines: seq<Line>) {
    lines == [] || (lines[0].price >= 0 && lines[0].quantity >= 0 && NoNegativeLine(lines[1..]))
  }

  /** `cartItems.reduce((sum, item) => sum + item.price * item.quantity, 0)`. */
  function Subtotal(lines: seq<Line>): (r: int)
    ensures lines == [] ==> r == 0
    ensures NoNegativeLine(lines) ==> r >= 0
  {
    if lines == [] then 0 else lines[0].price * lines[0].quantity + Subtotal(lines[1..])
  }

  /** A single line contributes its price times its quantity. */
  lemma SubtotalSingle(l: Line)
    ensures Subtotal([l]) == l.price * l.quantity
  {
    assert [l][1..] == [];
  }

  lemma {:induction false} SubtotalAppend(a: seq<Line>, b: seq<Line>)
    ensures Subtotal(a + b) == Subtotal(a) + Subtotal(b)
  {
    if a == [] {
      assert a + b == b;
    } else {
      assert (a + b)[1..] == a[1..] + b;
      SubtotalAppend(a[1..], b);
    }
  }

  /** The amount above which shipping is free. */
  const FreeShippingAbove: int := 500000
  const ShippingFee: int := 30000

  /** Shipping is free exactly above the threshold and the flat fee otherwise. */
  function Shipping(subtotal: int): (r: int)
    ensures r == 0 <==> subtotal > FreeShippingAbove
    ensures r == 0 || r == ShippingFee
  {
    if subtotal > FreeShippingAbove then 0 else ShippingFee
  }

  /** `Math.round(subtotal * 0.08)` on whole amounts, computed without floating
      point: the nearest whole number to 8 % of the subtotal, halves rounded up. */
  function Tax(subtotal: int): (r: int)
    ensures 100 * r - 50 <= 8 * subtotal < 100 * r + 50
  {
    (8 * subtotal + 50) / 100
  }

  /** The tax is determined by its rounding property. */
  lemma TaxIsTheNearestWholeAmount(subtotal: int, t: int)
    requires 100 * t - 50 <= 8 * subtotal < 100 * t + 50
    ensures t == Tax(subtotal)
  {
  }

  /** `subtotal + shipping + tax`: the nearest whole amount to 108 % of the
      subtotal plus the shipping, halves rounded up. */
  function Total(subtotal: int): (r: int)
    ensures 100 * r - 50 <= 108 * subtotal + 100 * Shipping(subtotal) < 100 * r + 50
  {
    subtotal + Shipping(subtotal) + Tax(subtotal)
  }

  /** The total is determined by its rounding property. */
  lemma TotalIsTheNearestWholeAmount(subtotal: int, t: int)
    requires 100 * t - 50 <= 108 * subtotal + 100 * Shipping(subtotal) < 100 * t + 50
    ensures t == Total(subtotal)
  {
  }

  lemma EmptyCartSummary()
    ensures Subtotal([]) == 0 && Shipping(0) == ShippingFee && Tax(0) == 0 && Total(0) == ShippingFee
  {
  }

  // ----- Changing a quantity -----

  /** `handleQuantityChange`: the lines whose id matches take the new quantity;
      nothing else changes. */
  function SetQuantity(lines: seq<Line>, id: string, quantity: int): (r: seq<Line>)
    ensures |r| == |lines|
    ensures forall i :: 0 <= i < |lines| && lines[i].id == id ==> r[i] == lines[i].(quantity := quantity)
    ensures forall i :: 0 <= i < |lines| && lines[i].id != id ==> r[i] == lines[i]
  {
    seq(|lines|, i requires 0 <= i < |lines| =>
      if lines[i].id == id then lines[i].(quantity := quantity) else lines[i])
  }

  /** A later change of the same line overrides an earlier one. */
  lemma SetQuantityLastWins(lines: seq<Line>, id: string, q1: int, q2: int)
    ensures SetQuantity(SetQuantity(lines, id, q1), id, q2) == SetQuantity(lines, id, q2)
  {
  }

  /** The number of lines with a given id. */
  function CountId(lines: seq<Line>, id: string): nat {
    if lines == [] then 0 else (if lines[0].id == id then 1 else 0) + CountId(lines[1..], id)
  }

  /** When exactly one line has the id, the subtotal moves by that line's price
      times the change of its quantity. */
  lemma {:induction false} SetQuantityMovesSubtotal(lines: seq<Line>, id: string, quantity: int, k: int)
    requires 0 <= k < |lines| && lines[k].id == id && CountId(lines, id) == 1
    ensures Subtotal(SetQuantity(lines, id, quantity)) ==
            Subtotal(lines) + lines[k].price * (quantity - lines[k].quantity)
  {
    var r := SetQuantity(lines, id, quantity);
    assert r[1..] == SetQuantity(lines[1..], id, quantity);
    if k == 0 {
      NoMatchUnchanged(lines[1..], id, quantity);
    } else {
      if lines[0].id == id {
        CountIdPositive(lines[1..], id, k - 1);
      }
      SetQuantityMovesSubtotal(lines[1..], id, quantity, k - 1);
    }
  }

  lemma {:induction false} CountIdPositive(lines: seq<Line>, id: string, k: int)
    requires 0 <= k < |lines| && lines[k].id == id
    ensures CountId(lines, id) > 0
  {
    if k > 0 {
      CountIdPositive(lines[1..], id, k - 1);
    }
  }

  lemma {:induction false} NoMatchUnchanged(lines: seq<Line>, id: string, quantity: int)
    requires CountId(lines, id) == 0
    ensures SetQuantity(lines, id, quantity) == lines
  {
    if lines != [] {
      NoMatchUnchanged(lines[1..], id, quantity);
      assert SetQuantity(lines, id, quantity)[1..] == SetQuantity(lines[1..], id, quantity);
    }
  }

  // ----- Removing a line -----

  /** `cartItems.filter((item) => item.id !== cartItemId)`. */
  function RemoveLines(lines: seq<Line>, id: string): (r: seq<Line>)
    ensures |r| + CountId(lines, id) == |lines|
    ensures forall x :: x in r <==> x in lines && x.id != id
  {
    if lines == [] then []
    else
      var rest := RemoveLines(lines[1..], id);
      assert forall x :: x in lines <==> x == lines[0] || x in lines[1..];
      if lines[0].id == id then rest else [lines[0]] + rest
  }

  /** Removal keeps the relative order of what remains. */
  lemma {:induction false} RemoveLinesAppend(a: seq<Line>, b: seq<Line>, id: string)
    ensures RemoveLines(a + b, id) == RemoveLines(a, id) + RemoveLines(b, id)
  {
    if a == [] {
      assert a + b == b;
    } else {
      var ab := a + b;
      assert ab[0] == a[0];
      assert ab[1..] == a[1..] + b;
      RemoveLinesAppend(a[1..], b, id);
      var head := if a[0].id == id then [] else [a[0]];
      assert RemoveLines(ab, id) == head + RemoveLines(ab[1..], id);
      assert RemoveLines(a, id) == head + RemoveLines(a[1..], id);
    }
  }

  /** The answer of the remove request: a failure, or the HTTP status of a response axios accepted. */
  datatype RemoveAnswer = RemoveFailed(failure: Failure) | Responded(status: nat)

  /** Everything `handleRemoveItem` leaves behind. */
  datatype Removal = Removal(
    lines: seq<Line>,
    store: Store,
    events: seq<Detail>,
    navigation: Option<string>,
    requested: bool,
    message: Option<string>)

  function RemoveMessage(e: Failure): string {
    match e
    case Rejected(s, m) => ServerMessage(s, m)
    case _ => "Could not remove item."
  }

  /** `handleRemoveItem`. Without a session no request is made and the page
      goes to the login page. A status of 200 removes the line, stores the new
      line count and dispatches it; any other outcome leaves the lines alone. */
  function HandleRemove(store: Store, lines: seq<Line>, cartItemId: string, answer: RemoveAnswer): (r: Removal)
    ensures r.requested <==> store.auth.Stored?
    ensures !r.requested ==>
              r.lines == lines && r.events == [] && r.navigation == Some("/login") &&
              r.store == (if store.auth.Absent? then store else ForgetSession(store))
    ensures r.requested && answer == Responded(200) ==>
              && r.lines == RemoveLines(lines, cartItemId)
              && r.store.cartCount == Some(DecimalString(|r.lines|))
              && r.store.auth == store.auth
              && r.events == [Numeric(|r.lines|)]
    ensures answer != Responded(200) ==> r.lines == lines && r.events == [] && r.store.cartCount == store.cartCount
  {
    match ReadSession(store.auth)
    case LoggedOut => Removal(lines, store, [], Some("/login"), false, None)
    case Unreadable(_) => Removal(lines, ForgetSession(store), [], Some("/login"), false, None)
    case Token(_) =>
      match answer
      case Responded(200) =>
        var remaining := RemoveLines(lines, cartItemId);
        var (s, d) := Publish(store, |remaining|);
        Removal(remaining, s, [d], None, true, None)
      case Responded(status) =>
        Removal(lines, store, [], None, true,
                Some(RemoveMessage(Thrown("Server responded with status " + DecimalString(status)))))
      case RemoveFailed(e) => Removal(lines, store, [], None, true, Some(RemoveMessage(e)))
  }

  /** After a successful removal every navigation bar shows the number of
      remaining lines, which is the old number less the lines that had the id. */
  lemma RemovalUpdatesEveryBadge(store: Store, lines: seq<Line>, id: string, bars: seq<Navbar>)
    requires store.auth.Stored?
    ensures var r := HandleRemove(store, lines, id, Responded(200));
            && |r.lines| == |lines| - CountId(lines, id)
            && (forall i :: 0 <= i < |bars| ==>
                  Dispatch(bars, r.events[0])[i].badge == Some(|r.lines|))
            && MountNavbar(r.store, false).0.badge == Some(|r.lines|)
  {
    var r := HandleRemove(store, lines, id, Responded(200));
    PublishReachesEveryBar(store, |r.lines|, bars, false);
  }
}
