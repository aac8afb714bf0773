/** The product detail page: fetching one product by the `id` query parameter
    (signed in or not), the quantity stepper, and adding to the cart, after
    which the navigation bars are told the cart's new number of lines. */
module ProductPage {
  import opened Js
  import opened Http
  import opened Session
  import opened CartItem

  /** The fields of a product the page's logic uses. */
  datatype Product = Product(id: string, name: string, stock: int)

  /** The detail effect calls the fetch only when the `id` parameter is truthy. */
  predicate FetchesDetail(id: Option<string>) {
    Truthy(id)
  }

  /** The detail request's headers: `Authorization` exactly when a truthy token
      was read. Viewing is allowed anonymously, so unreadable data is neither
      an error nor removed here. */
  function DetailHeaders(slot: AuthSlot): (h: seq<(string, string)>)
    ensures |h| <= 1
    ensures h != [] <==> Truthy(QuietToken(slot))
    ensures h != [] ==> h[0] == ("Authorization", BearerHeader(QuietToken(slot)))
  {
    var t := QuietToken(slot);
    if Truthy(t) then [("Authorization", BearerHeader(t))] else []
  }

  /** The answer of the detail request. */
  datatype DetailAnswer =
    | DetailFailed(failure: Failure)
    | DetailBody(success: bool, data: Option<Product>, message: string)

  /** What the page shows. The page starts out loading and stays so when it never fetches. */
  datatype View = Loading | Shown(product: Option<Product>) | Failed(message: string)

  const DetailDefaultMessage: string := "Could not fetch product details."

  /** The detail effect. */
  function LoadDetail(id: Option<string>, answer: DetailAnswer): (v: View)
    ensures !FetchesDetail(id) ==> v == Loading
    ensures FetchesDetail(id) ==> (v.Shown? <==> answer.DetailBody? && answer.success)
    ensures v.Shown? ==> v.product == answer.data
  {
    if !FetchesDetail(id) then Loading
    else match answer
      case DetailFailed(e) => Failed(Describe(e, DetailDefaultMessage))
      case DetailBody(ok, data, m) =>
        if ok then Shown(data)
        else Failed(Describe(Thrown(if m != "" then m else "Failed to fetch product details."), DetailDefaultMessage))
  }

  /** Every stepper and the add button are disabled when out of stock or while adding. */
  predicate ControlsDisabled(p: Product, adding: bool) {
    p.stock <= 0 || adding
  }

  /** A press of the stepper's minus or plus button. */
  datatype Press = Minus | Plus

  /** The quantity after a series of presses; a press on a disabled button does nothing. */
  function PressAll(p: Product, adding: bool, quantity: int, presses: seq<Press>): (r: int)
    ensures ControlsDisabled(p, adding) ==> r == quantity
    ensures quantity >= 1 ==> 1 <= r <= quantity + |presses|
    decreases |presses|
  {
    if presses == [] then quantity
    else
      var q := if ControlsDisabled(p, adding) then quantity
               else if presses[0].Minus? then Decrement(quantity) else Increment(quantity);
      PressAll(p, adding, q, presses[1..])
  }

  /** From the initial quantity of one, no series of presses takes the quantity
      below one; with the controls disabled it does not move at all; and the
      pluses and minuses bound how far it can go up. */
  lemma {:induction false} PressesKeepQuantityPositive(p: Product, adding: bool, quantity: int, presses: seq<Press>)
    requires quantity >= 1
    ensures PressAll(p, adding, quantity, presses) >= 1
    ensures ControlsDisabled(p, adding) ==> PressAll(p, adding, quantity, presses) == quantity
    ensures PressAll(p, adding, quantity, presses) <= quantity + |presses|
    decreases |presses|
  {
    if presses != [] {
      var q := if ControlsDisabled(p, adding) then quantity
               else if presses[0].Minus? then Decrement(quantity) else Increment(quantity);
      StepperBounds(quantity);
      PressesKeepQuantityPositive(p, adding, q, presses[1..]);
    }
  }

  /** The answer of the add-to-cart request: a failure, or an accepted response
      with its status and, when `data.items` is present, that array's length. */
  datatype AddAnswer = AddFailed(failure: Failure) | AddResponded(status: nat, items: Option<nat>)

  /** Everything `handleAddToCart` leaves behind. */
  datatype Adding = Adding(
    store: Store,
    events: seq<Detail>,
    navigation: Option<string>,
    requested: bool,
    added: bool,
    message: Option<string>)

  const AddDefaultMessage: string := "Could not add item to cart."
  const InvalidCartAnswer: string := "Received an invalid response from the cart server."

  /** The error toast's text. */
  function AddMessage(e: Failure): string {
    Describe(e, AddDefaultMessage)
  }

  /** The sources of the error text in the order the page consults them: the
      server's message, the server's status, the network text, the error's own
      message, the default. Each is present only for the failures it applies to. */
  function MessageCandidates(e: Failure): seq<Option<string>> {
    [ if e.Rejected? && e.message != "" then Some(e.message) else None,
      if e.Rejected? then Some("Server error: " + DecimalString(e.status)) else None,
      if e.Unreachable? then Some(NetworkMessage) else None,
      if e.Thrown? && e.message != "" then Some(e.message) else None,
      Some(AddDefaultMessage) ]
  }

  function FirstPresent(xs: seq<Option<string>>): (r: Option<string>)
    ensures r.Some? <==> exists i :: 0 <= i < |xs| && xs[i].Some?
    ensures r.Some? ==> exists i :: 0 <= i < |xs| && xs[i] == r &&
                          forall j :: 0 <= j < i ==> xs[j].None?
  {
    if xs == [] then None
    else if xs[0].Some? then xs[0]
    else
      var r := FirstPresent(xs[1..]);
      if r.Some? then
        ghost var i :| 0 <= i < |xs[1..]| && xs[1..][i] == r && forall j :: 0 <= j < i ==> xs[1..][j].None?;
        assert xs[i + 1] == r;
        assert forall j :: 0 <= j < i + 1 ==> xs[j].None? by {
          forall j | 0 <= j < i + 1 ensures xs[j].None? {
            if j > 0 { assert xs[j] == xs[1..][j - 1]; }
          }
        }
        r
      else
        assert forall i :: 1 <= i < |xs| ==> xs[i] == xs[1..][i - 1];
        r
  }

  /** The error text is the first available source in the page's order of precedence. */
  lemma AddMessagePrecedence(e: Failure)
    ensures Some(AddMessage(e)) == FirstPresent(MessageCandidates(e))
  {
    var c := MessageCandidates(e);
    var c4 := [Some(AddDefaultMessage)];
    var c3 := [c[3]] + c4;
    var c2 := [c[2]] + c3;
    var c1 := [c[1]] + c2;
    assert c == [c[0]] + c1;
    FirstPresentCons(Some(AddDefaultMessage), []);
    assert [Some(AddDefaultMessage)] + [] == c4;
    FirstPresentCons(c[3], c4);
    FirstPresentCons(c[2], c3);
    FirstPresentCons(c[1], c2);
    FirstPresentCons(c[0], c1);
  }

  /** The first present source of a list is its head when present, else the first of the rest. */
  lemma FirstPresentCons(x: Option<string>, xs: seq<Option<string>>)
    ensures FirstPresent([x] + xs) == if x.Some? then x else FirstPresent(xs)
  {
    assert ([x] + xs)[1..] == xs;
  }

  /** `handleAddToCart`. Nothing happens without a product. Without a session
      no request is made and the page goes to the login page (forgetting
      unreadable data). Only status 200 with `data.items` counts as success:
      the new count is that array's length, stored and dispatched alike. */
  function AddToCart(product: Option<Product>, store: Store, answer: AddAnswer): (r: Adding)
    ensures product.None? ==> r == Adding(store, [], None, false, false, None)
    ensures r.requested <==> product.Some? && store.auth.Stored?
    ensures product.Some? && !store.auth.Stored? ==>
              r.navigation == Some("/login") && r.events == [] &&
              r.store == (if store.auth.Absent? then store else ForgetSession(store))
    ensures r.added <==> r.requested && answer.AddResponded? && answer.status == 200 && answer.items.Some?
    ensures r.added ==>
              && r.store.cartCount == Some(DecimalString(answer.items.value))
              && r.store.auth == store.auth
              && r.events == [Numeric(answer.items.value)]
              && r.message.None?
    ensures r.requested && !r.added ==>
              r.store == store && r.events == [] && r.message.Some?
    ensures r.requested && answer.AddResponded? && !r.added ==> r.message == Some(InvalidCartAnswer)
  {
    if product.None? then Adding(store, [], None, false, false, None)
    else match ReadSession(store.auth)
      case LoggedOut => Adding(store, [], Some("/login"), false, false, None)
      case Unreadable(_) => Adding(ForgetSession(store), [], Some("/login"), false, false, None)
      case Token(_) =>
        match answer
        case AddResponded(status, items) =>
          if status == 200 && items.Some? then
            var (s, d) := Publish(store, items.value);
            Adding(s, [d], None, true, true, None)
          else Adding(store, [], None, true, false, Some(AddMessage(Thrown(InvalidCartAnswer))))
        case AddFailed(e) => Adding(store, [], None, true, false, Some(AddMessage(e)))
  }

  /** After adding, every navigation bar shows the server's line count, not an
      incremented guess, and so does a bar mounted later. */
  lemma AddToCartSyncsBadge(p: Product, store: Store, n: nat, bars: seq<Navbar>)
    requires store.auth.Stored?
    ensures var r := AddToCart(Some(p), store, AddResponded(200, Some(n)));
            && r.added
            && (forall i :: 0 <= i < |bars| ==> Dispatch(bars, r.events[0])[i].badge == Some(n))
            && MountNavbar(r.store, false).0.badge == Some(n)
  {
    PublishReachesEveryBar(store, n, bars, false);
  }
}
