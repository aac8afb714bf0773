/** The administrators' product page: the role gate, the product table with
    its status labels, soft deletion and restoration, and the refresh after
    the product form saves. */
module Admin {
  import opened Js
  import opened Http
  import opened Session

  /** A product record as the administrators' API sends it. */
  datatype AdminProduct = AdminProduct(
    id: string,
    name: string,
    imageUrl: string,
    price: int,
    quantity: int,
    soldCount: int,
    deleted: bool)

  const LoginRequired: string := "You must be logged in."
  const NotAdministrator: string := "Access Denied: You are not an administrator."

  /** The outcome of the page's authorisation check. */
  datatype Access = Denied(message: string) | Admitted(token: Option<string>)

  /** Only a readable session whose user has the role `ADMIN` is admitted.
      Missing data asks for a login, unparseable text reports the parser's
      message, and a `null` session or any other role is refused. */
  function CheckAccess(slot: AuthSlot): (a: Access)
    ensures a.Admitted? <==> slot.Stored? && slot.data.user.Some? && slot.data.user.value.role == "ADMIN"
    ensures a.Admitted? ==> a.token == slot.data.token
    ensures slot.Absent? ==> a == Denied(LoginRequired)
    ensures slot.Unparseable? ==> a == Denied(slot.message)
    ensures slot.NullValue? ==> a == Denied(NotAdministrator)
    ensures slot.Stored? && !a.Admitted? ==> a == Denied(NotAdministrator)
  {
    match slot
    case Absent => Denied(LoginRequired)
    case Unparseable(m) => Denied(m)
    case NullValue => Denied(NotAdministrator)
    case Stored(d) =>
      if d.user.None? || d.user.value.role != "ADMIN" then Denied(NotAdministrator)
      else Admitted(d.token)
  }

  /** The answer of the products request. */
  datatype ProductsAnswer =
    | ProductsFailed(failure: Failure)
    | ProductsBody(success: bool, data: seq<AdminProduct>)

  /** What the mount effect leaves behind. */
  datatype Page = Page(products: seq<AdminProduct>, error: Option<string>, navigation: Option<string>, requested: bool)

  const FetchDefaultMessage: string := "Could not fetch products."

  /** Only a server response contributes its own text; every other failure,
      including a body without `success`, shows the default. */
  function FetchMessage(e: Failure): (m: string)
    ensures e.Rejected? ==> m == ServerMessage(e.status, e.message)
    ensures !e.Rejected? ==> m == FetchDefaultMessage
  {
    match e
    case Rejected(s, msg) => ServerMessage(s, msg)
    case _ => FetchDefaultMessage
  }

  /** The mount effect: a refused visitor sees the reason and is sent to the
      home page without any request; an administrator gets the list. */
  function Mount(slot: AuthSlot, answer: ProductsAnswer): (p: Page)
    ensures p.requested <==> CheckAccess(slot).Admitted?
    ensures !p.requested ==> p == Page([], Some(CheckAccess(slot).message), Some("/"), false)
    ensures p.requested ==> p.navigation.None?
    ensures p.requested ==> (p.error.None? <==> answer.ProductsBody? && answer.success)
    ensures p.requested && p.error.None? ==> p.products == answer.data
    ensures p.error.Some? ==> p.products == []
  {
    match CheckAccess(slot)
    case Denied(m) => Page([], Some(m), Some("/"), false)
    case Admitted(_) =>
      match answer
      case ProductsFailed(e) => Page([], Some(FetchMessage(e)), None, true)
      case ProductsBody(ok, data) =>
        if ok then Page(data, None, None, true)
        else Page([], Some(FetchMessage(Thrown("Failed to parse product data"))), None, true)
  }

  /** The admin page's navigation bar shows the Admin link exactly to a
      readable session whose user is an administrator. */
  lemma AdminLinkOnlyForAdministrators(store: Store)
    ensures AdminLinkShown(MountNavbar(store, true).0) <==>
              store.auth.Stored? && store.auth.data.user.Some? && store.auth.data.user.value.role == "ADMIN"
    ensures AdminLinkShown(MountNavbar(store, true).0) <==> CheckAccess(store.auth).Admitted?
  {
  }

  // ----- Table -----

  /** The status column. */
  function StatusLabel(p: AdminProduct): (r: string)
    ensures r == "Deleted" <==> p.deleted
    ensures !p.deleted ==> (r == "In Stock" <==> p.quantity > 0)
    ensures r == "Deleted" || r == "In Stock" || r == "Out of Stock"
  {
    if p.deleted then "Deleted" else if p.quantity > 0 then "In Stock" else "Out of Stock"
  }

  /** The action button offers restoring a deleted product and deleting any other. */
  predicate OffersRestore(p: AdminProduct) {
    p.deleted
  }

  /** The status column and the action button always agree. */
  lemma LabelMatchesAction(p: AdminProduct)
    ensures StatusLabel(p) == "Deleted" <==> OffersRestore(p)
    ensures !OffersRestore(p) ==> (StatusLabel(p) == "In Stock" <==> p.quantity > 0)
  {
  }

  /** `products.map(p => p._id === id ? { ...p, deleted } : p)`. */
  function SetDeleted(products: seq<AdminProduct>, id: string, deleted: bool): (r: seq<AdminProduct>)
    ensures |r| == |products|
    ensures forall i :: 0 <= i < |products| ==>
              r[i] == (if products[i].id == id then products[i].(deleted := deleted) else products[i])
  {
    seq(|products|, i requires 0 <= i < |products| =>
          if products[i].id == id then products[i].(deleted := deleted) else products[i])
  }

  /** Restoring a product that was live before its deletion gives the table back,
      and marking twice is marking once. */
  lemma RestoreUndoesDelete(products: seq<AdminProduct>, id: string)
    requires forall i :: 0 <= i < |products| && products[i].id == id ==> !products[i].deleted
    ensures SetDeleted(SetDeleted(products, id, true), id, false) == products
  {
  }

  lemma SetDeletedIdempotent(products: seq<AdminProduct>, id: string, deleted: bool)
    ensures SetDeleted(SetDeleted(products, id, deleted), id, deleted) == SetDeleted(products, id, deleted)
  {
  }

  /** After a deletion every row with the id is labelled `Deleted` and offers
      restoring; after a restoration its label follows the stock again. */
  lemma ToggleShowsInTable(products: seq<AdminProduct>, id: string, i: int)
    requires 0 <= i < |products| && products[i].id == id
    ensures StatusLabel(SetDeleted(products, id, true)[i]) == "Deleted"
    ensures OffersRestore(SetDeleted(products, id, true)[i])
    ensures StatusLabel(SetDeleted(products, id, false)[i]) ==
              (if products[i].quantity > 0 then "In Stock" else "Out of Stock")
  {
  }

  // ----- Delete and restore -----

  /** The answer of a delete or restore request. */
  datatype ToggleAnswer = ToggleDone | ToggleFailed(failure: Failure)

  /** What a delete or restore click leaves behind: the table, whether the
      request was made, and the toast's text. */
  datatype Toggle = Toggle(products: seq<AdminProduct>, requested: bool, message: Option<string>)

  const RestoreEndpoint: string := "http://localhost:3002/restoreproduct"

  /** The toast text of a completed or failed delete (`deleting`) or restore. */
  function ToggleMessage(deleting: bool, ok: bool): string {
    if deleting then (if ok then "Product marked as deleted." else "Could not delete product.")
    else if ok then "Product restored."
    else "Could not restore product. (Ensure " + RestoreEndpoint + " is correct)"
  }

  /** `handleDelete` (`deleting`) and `handleRestore`. `getAuthToken` is
      `QuietToken`: a failure to read the session is reported but does not
      remove it. Nothing is sent without a truthy token; a failed request
      leaves the table as it was. */
  function HandleToggle(products: seq<AdminProduct>, slot: AuthSlot, id: string, deleting: bool, answer: ToggleAnswer): (r: Toggle)
    ensures r.requested <==> Truthy(QuietToken(slot))
    ensures !r.requested ==> r.products == products
    ensures !r.requested ==> (r.message.Some? <==> !slot.Stored?)
    ensures r.requested && answer.ToggleDone? ==> r.products == SetDeleted(products, id, deleting)
    ensures r.requested && answer.ToggleFailed? ==> r.products == products
    ensures r.requested ==> r.message == Some(ToggleMessage(deleting, answer.ToggleDone?))
  {
    if !slot.Stored? then Toggle(products, false, Some("Please log in again."))
    else if !Truthy(QuietToken(slot)) then Toggle(products, false, None)
    else match answer
      case ToggleDone => Toggle(SetDeleted(products, id, deleting), true, Some(ToggleMessage(deleting, true)))
      case ToggleFailed(_) => Toggle(products, true, Some(ToggleMessage(deleting, false)))
  }

  /** A deletion and then a restoration of a live product, both answered, give
      the table back. */
  lemma DeleteThenRestore(products: seq<AdminProduct>, slot: AuthSlot, id: string)
    requires Truthy(QuietToken(slot))
    requires forall i :: 0 <= i < |products| && products[i].id == id ==> !products[i].deleted
    ensures var d := HandleToggle(products, slot, id, true, ToggleDone);
            HandleToggle(d.products, slot, id, false, ToggleDone).products == products
  {
    RestoreUndoesDelete(products, id);
  }

  // ----- Refresh after saving -----

  /** What `handleSaveProduct` leaves behind: the table, the toast, and whether the form stays open. */
  datatype Refresh = Refresh(products: seq<AdminProduct>, message: Option<string>, formOpen: bool)

  const RefreshWarning: string := "Product added but failed to refresh list. Please reload the page."
  const RefreshedNotice: string := "Product list refreshed!"

  /** `handleSaveProduct`: reload the list when a session can be read. The form
      closes on every path, including the early return without a session. */
  function RefreshAfterSave(products: seq<AdminProduct>, slot: AuthSlot, answer: ProductsAnswer): (r: Refresh)
    ensures !r.formOpen
    ensures slot.Absent? ==> r == Refresh(products, None, false)
    ensures (slot.Unparseable? || slot.NullValue?) ==> r == Refresh(products, Some(RefreshWarning), false)
    ensures r.products != products ==> slot.Stored? && answer.ProductsBody? && answer.success && r.products == answer.data
    ensures slot.Stored? && answer.ProductsFailed? ==> r.message == Some(RefreshWarning) && r.products == products
    ensures slot.Stored? && answer.ProductsBody? && answer.success ==>
              r.products == answer.data && r.message == Some(RefreshedNotice)
    ensures slot.Stored? && answer.ProductsBody? && !answer.success ==> r == Refresh(products, None, false)
  {
    match slot
    case Absent => Refresh(products, None, false)
    case Unparseable(_) => Refresh(products, Some(RefreshWarning), false)
    case NullValue => Refresh(products, Some(RefreshWarning), false)
    case Stored(_) =>
      match answer
      case ProductsFailed(_) => Refresh(products, Some(RefreshWarning), false)
      case ProductsBody(ok, data) =>
        if ok then Refresh(data, Some(RefreshedNotice), false)
        else Refresh(products, None, false)
  }
}
