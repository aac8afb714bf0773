/** The browser-tab session: the `authData` and `cartCount` entries of local
    storage, the navigation bar that reads them on mount, and the `cartUpdated`
    event through which a page that changed the cart tells every mounted
    navigation bar the new number of cart lines. */
module Session {
  import opened Js

  /** The signed-in user; an absent field is the empty string, which every page
      treats the same way as a missing one. */
  datatype User = User(email: string, role: string)

  /** The parsed `authData` record; a missing property reads as `None` (`undefined`). */
  datatype AuthData = AuthData(user: Option<User>, token: Option<string>)

  /** The `authData` entry as `JSON.parse` sees it. */
  datatype AuthSlot =
      /** No entry, or the empty string: `!storedData` holds. */
    | Absent
      /** Text that does not parse; `message` is the text of the exception `JSON.parse` throws. */
    | Unparseable(message: string)
      /** Text that parses to `null`: reading any property of it throws. */
    | NullValue
      /** Text that parses to a value whose properties can be read. */
    | Stored(data: AuthData)

  /** The two local-storage entries the pages use. */
  datatype Store = Store(auth: AuthSlot, cartCount: Option<string>)

  /** Text of the exception thrown when a page reads a property of a `null` session. */
  const NullReadMessage: string := "Cannot read properties of null"

  /** What a page that needs a session learns from `authData`. */
  datatype Gate =
    | LoggedOut
    | Unreadable(message: string)
    | Token(token: Option<string>)

  /** Reading `authData` and then its `token`, as the cart, checkout, product
      and home pages do inside one `try`. */
  function ReadSession(slot: AuthSlot): (g: Gate)
    ensures g.LoggedOut? <==> slot.Absent?
    ensures g.Token? <==> slot.Stored?
    ensures slot.Stored? ==> g == Token(slot.data.token)
  {
    match slot
    case Absent => LoggedOut
    case Unparseable(m) => Unreadable(m)
    case NullValue => Unreadable(NullReadMessage)
    case Stored(d) => Token(d.token)
  }

  /** The token of a readable session, and none otherwise, for pages that read
      it without reacting to a missing or unreadable session. It is the token
      `ReadSession` yields whenever that yields one. */
  function QuietToken(slot: AuthSlot): (t: Option<string>)
    ensures ReadSession(slot).Token? ==> t == ReadSession(slot).token
    ensures !ReadSession(slot).Token? ==> t.None?
  {
    if slot.Stored? then slot.data.token else None
  }

  /** `localStorage.removeItem("authData")`. */
  function ForgetSession(store: Store): (s: Store)
    ensures s.auth.Absent? && s.cartCount == store.cartCount
  {
    store.(auth := Absent)
  }

  /** The navigation bar's logout (and its reaction to unreadable data):
      both entries are removed. */
  function Logout(store: Store): (s: Store)
    ensures s.auth.Absent? && s.cartCount.None?
  {
    Store(Absent, None)
  }

  /** The navigation bar's state: the user it shows as signed in, and its
      badge count, where `None` is `NaN`. */
  datatype Navbar = Navbar(user: Option<User>, badge: Option<int>)

  /** A badge is drawn only for a count above zero (`NaN > 0` is false). */
  predicate BadgeShown(n: Navbar) {
    n.badge.Some? && n.badge.value > 0
  }

  /** The Admin link is drawn only for a signed-in user whose role is `ADMIN`. */
  predicate AdminLinkShown(n: Navbar) {
    n.user.Some? && n.user.value.role == "ADMIN"
  }

  /** The badge read from the stored `cartCount`: `parseInt` of the text when it
      is non-empty, else the initial 0. */
  function StoredBadge(count: Option<string>): (b: Option<int>)
    ensures Truthy(count) ==> b == ParseInt(count.value)
    ensures !Truthy(count) ==> b == Some(0)
  {
    if Truthy(count) then
      match ParseInt(count.value)
      case Some(n) => Some(n)
      case None => None
    else Some(0)
  }

  /** The navigation bar's mount effect. The shopper pages' bar shows a user
      only when `user.email` is truthy; the admin page's bar (`adminBar`) shows
      any present `user`. Data that cannot be read removes both entries and
      leaves the initial state. */
  function MountNavbar(store: Store, adminBar: bool): (r: (Navbar, Store))
    ensures (store.auth.Unparseable? || store.auth.NullValue?) ==>
              r == (Navbar(None, Some(0)), Logout(store))
    ensures (store.auth.Absent? || store.auth.Stored?) ==>
              r.1 == store && r.0.badge == StoredBadge(store.cartCount)
    ensures r.0.user.Some? <==>
              store.auth.Stored? && store.auth.data.user.Some? &&
              (adminBar || store.auth.data.user.value.email != "")
    ensures r.0.user.Some? ==> r.0.user == store.auth.data.user
  {
    match store.auth
    case Absent => (Navbar(None, StoredBadge(store.cartCount)), store)
    case Unparseable(_) => (Navbar(None, Some(0)), Logout(store))
    case NullValue => (Navbar(None, Some(0)), Logout(store))
    case Stored(d) =>
      var shown := d.user.Some? && (adminBar || d.user.value.email != "");
      (Navbar(if shown then d.user else None, StoredBadge(store.cartCount)), store)
  }

  /** The `detail.newCount` of a `cartUpdated` event: a number or anything else. */
  datatype Detail = Numeric(n: int) | NotNumeric

  /** The navigation bar's `cartUpdated` listener: it adopts a numeric count and ignores anything else. */
  function OnCartUpdated(bar: Navbar, detail: Detail): (b: Navbar)
    ensures b.user == bar.user
    ensures detail.Numeric? ==> b.badge == Some(detail.n)
    ensures detail.NotNumeric? ==> b == bar
  {
    match detail
    case Numeric(n) => bar.(badge := Some(n))
    case NotNumeric => bar
  }

  /** Delivers one event to every mounted navigation bar, in subscription order. */
  function Dispatch(bars: seq<Navbar>, detail: Detail): (r: seq<Navbar>)
    ensures |r| == |bars|
    ensures forall i :: 0 <= i < |bars| ==> r[i] == OnCartUpdated(bars[i], detail)
  {
    seq(|bars|, i requires 0 <= i < |bars| => OnCartUpdated(bars[i], detail))
  }

  /** What a page does after a successful cart change: store the new line count
      as text, then dispatch it. */
  function Publish(store: Store, newCount: nat): (r: (Store, Detail))
    ensures r.0.auth == store.auth
    ensures r.0.cartCount == Some(DecimalString(newCount))
    ensures r.1 == Numeric(newCount)
  {
    (store.(cartCount := Some(DecimalString(newCount))), Numeric(newCount))
  }

  /** After a publish, every mounted bar shows the new count, and a bar mounted
      afterwards (on any page whose session is readable or absent) reads the
      same count back from storage. */
  lemma PublishReachesEveryBar(store: Store, newCount: nat, bars: seq<Navbar>, adminBar: bool)
    requires store.auth.Absent? || store.auth.Stored?
    ensures var (s, d) := Publish(store, newCount);
            && (forall i :: 0 <= i < |bars| ==> Dispatch(bars, d)[i].badge == Some(newCount))
            && MountNavbar(s, adminBar).0.badge == Some(newCount)
  {
    ParseIntOfDecimalString(newCount);
  }

  /** Logging out shows nobody and no badge on the next mount. */
  lemma LogoutForgetsEverything(store: Store, adminBar: bool)
    ensures var bar := MountNavbar(Logout(store), adminBar).0;
            bar.user.None? && !BadgeShown(bar) && !AdminLinkShown(bar)
  {
  }
}
