/** The home page: the signed-in product listing, its mapping from the API's
    records, the category filter and the sort orders. */
module Catalog {
  import opened Js
  import opened Http
  import opened Session

  /** A product record as the listing API sends it. `createdAt` is the time value
      (milliseconds) that `new Date(createdAt).getTime()` yields. */
  datatype ApiProduct = ApiProduct(
    id: string,
    name: string,
    price: int,
    imageUrl: string,
    avatarUrl: string,
    category: string,
    createdAt: int)

  /** A product as the listing shows it. */
  datatype Product = Product(id: string, name: string, price: int, image: string, category: string, createdAt: int)

  const PlaceholderImage: string := "https://placehold.co/300x300/e2e8f0/333?text=Product"
  const DefaultCategory: string := "accessories"

  /** One record mapped for display: the first truthy of the image fields, else a
      placeholder, and a default category. */
  function ToProduct(p: ApiProduct): (q: Product)
    ensures q.id == p.id && q.name == p.name && q.price == p.price && q.createdAt == p.createdAt
    ensures q.image == FirstTruthy(p.imageUrl, p.avatarUrl, PlaceholderImage)
    ensures q.category == (if p.category != "" then p.category else DefaultCategory)
  {
    Product(p.id, p.name, p.price,
            FirstTruthy(p.imageUrl, p.avatarUrl, PlaceholderImage),
            if p.category != "" then p.category else DefaultCategory,
            p.createdAt)
  }

  /** Every listed product has an image to show and a category to filter on. */
  predicate Displayable(q: Product) {
    q.image != "" && q.category != ""
  }

  /** What one record contributes to the listing: its mapped form when its price is positive. */
  function Listed(p: ApiProduct): seq<Product> {
    if p.price > 0 then [ToProduct(p)] else []
  }

  /** `data.filter(p => p.price > 0).map(...)`. */
  function ToCatalog(api: seq<ApiProduct>): (r: seq<Product>)
    ensures |r| <= |api|
    ensures forall i :: 0 <= i < |r| ==> r[i].price > 0 && Displayable(r[i])
  {
    if api == [] then [] else Listed(api[0]) + ToCatalog(api[1..])
  }

  /** A record is listed exactly when its price is positive, and then as its mapped form. */
  lemma {:induction false} ToCatalogMembers(api: seq<ApiProduct>, p: ApiProduct)
    ensures p in api && p.price > 0 ==> ToProduct(p) in ToCatalog(api)
    ensures forall q :: q in ToCatalog(api) ==> exists a :: a in api && a.price > 0 && q == ToProduct(a)
  {
    if api != [] {
      ToCatalogMembers(api[1..], p);
      var head := Listed(api[0]);
      assert ToCatalog(api) == head + ToCatalog(api[1..]);
      forall q | q in ToCatalog(api)
        ensures exists a :: a in api && a.price > 0 && q == ToProduct(a)
      {
        if q in head {
          assert api[0] in api;
        } else {
          var a :| a in api[1..] && a.price > 0 && q == ToProduct(a);
          assert a in api;
        }
      }
    }
  }

  /** Listing two batches is listing each. */
  lemma {:induction false} ToCatalogAppend(a: seq<ApiProduct>, b: seq<ApiProduct>)
    ensures ToCatalog(a + b) == ToCatalog(a) + ToCatalog(b)
  {
    if a == [] {
      assert a + b == b;
    } else {
      var ab := a + b;
      assert ab[0] == a[0] && ab[1..] == a[1..] + b;
      ToCatalogAppend(a[1..], b);
    }
  }

  // ----- The home page's navigation bar -----

  /** The home page's own navigation bar on mount: it shows a user with a
      truthy email, never reads the stored cart count and does not listen for
      cart updates; unreadable data removes only the session. */
  function MountHomeNavbar(store: Store): (r: (Navbar, Store))
    ensures r.0.badge == Some(0)
    ensures r.1.cartCount == store.cartCount
    ensures r.1.auth == (if store.auth.Unparseable? || store.auth.NullValue? then Absent else store.auth)
    ensures r.0.user.Some? <==> store.auth.Stored? && store.auth.data.user.Some? && store.auth.data.user.value.email != ""
  {
    match store.auth
    case Stored(d) =>
      (Navbar(if d.user.Some? && d.user.value.email != "" then d.user else None, Some(0)), store)
    case Absent => (Navbar(None, Some(0)), store)
    case _ => (Navbar(None, Some(0)), ForgetSession(store))
  }

  /** Unlike the other pages' bars, the home page's bar never shows a cart
      badge, even right after a cart change was published. */
  lemma HomeBadgeIgnoresPublishedCount(store: Store, newCount: nat)
    requires store.auth.Absent? || store.auth.Stored?
    ensures var (s, _) := Publish(store, newCount);
            && !BadgeShown(MountHomeNavbar(s).0)
            && (newCount > 0 ==> BadgeShown(MountNavbar(s, false).0))
  {
    ParseIntOfDecimalString(newCount);
  }

  /** The home bar's logout: only `authData` is removed, then the page reloads
      and its bar mounts again. The stored cart count stays behind. */
  function HomeLogout(store: Store): (r: (Navbar, Store))
    ensures r.1.auth.Absent? && r.1.cartCount == store.cartCount
    ensures r.0.user.None? && !BadgeShown(r.0)
  {
    MountHomeNavbar(ForgetSession(store))
  }

  /** Unlike the other bars' logout, the home bar's leaves the last cart count
      stored, so the next shopper page's bar shows it to the signed-out visitor. */
  lemma HomeLogoutLeavesStaleBadge(store: Store, n: nat)
    requires n > 0 && store.cartCount == Some(DecimalString(n))
    ensures var bar := MountNavbar(HomeLogout(store).1, false).0;
            bar.user.None? && bar.badge == Some(n) && BadgeShown(bar)
    ensures !BadgeShown(MountNavbar(Logout(store), false).0)
  {
    ParseIntOfDecimalString(n);
  }

  // ----- Category filter -----

  /** `"all"` keeps everything; any other choice keeps that category's products, in order. */
  function FilterCategory(products: seq<Product>, category: string): (r: seq<Product>)
    ensures category == "all" ==> r == products
    ensures category != "all" ==> forall i :: 0 <= i < |r| ==> r[i].category == category
    ensures |r| <= |products|
  {
    if category == "all" || products == [] then products
    else (if products[0].category == category then [products[0]] else []) + FilterCategory(products[1..], category)
  }

  /** Membership: a product survives the filter exactly when it has the chosen category. */
  lemma {:induction false} FilterCategoryMembers(products: seq<Product>, category: string, q: Product)
    ensures q in FilterCategory(products, category) <==>
              q in products && (category == "all" || q.category == category)
  {
    if category != "all" && products != [] {
      FilterCategoryMembers(products[1..], category, q);
      assert products == [products[0]] + products[1..];
    }
  }

  /** Filtering a list is filtering its parts: the kept products stay in
      their order, each as often as it occurs. With the one-product case below
      this determines the filter. */
  lemma {:induction false} FilterCategoryAppend(a: seq<Product>, b: seq<Product>, category: string)
    ensures FilterCategory(a + b, category) == FilterCategory(a, category) + FilterCategory(b, category)
  {
    if category != "all" && a != [] {
      assert (a + b)[1..] == a[1..] + b;
      FilterCategoryAppend(a[1..], b, category);
    } else if a == [] {
      assert a + b == b;
    }
  }

  /** One product is kept exactly when the choice is "all" or its category. */
  lemma FilterCategorySingle(p: Product, category: string)
    ensures FilterCategory([p], category) == (if category == "all" || p.category == category then [p] else [])
  {
    assert [p][1..] == [];
  }

  /** Filtering twice by the same category is filtering once. */
  lemma {:induction false} FilterCategoryIdempotent(products: seq<Product>, category: string)
    ensures FilterCategory(FilterCategory(products, category), category) == FilterCategory(products, category)
  {
    if category != "all" && products != [] {
      FilterCategoryIdempotent(products[1..], category);
      var rest := FilterCategory(products[1..], category);
      if products[0].category == category {
        var r := [products[0]] + rest;
        assert r[0] == products[0] && r[1..] == rest;
      } else {
        assert [] + rest == rest;
      }
    }
  }

  // ----- Sort orders -----

  /** The comparator of the sort: negative puts `a` first. Any key other than the
      three named ones (such as `featured`) compares everything as equal. */
  function Compare(key: string, a: Product, b: Product): int {
    if key == "price-low" then a.price - b.price
    else if key == "price-high" then b.price - a.price
    else if key == "newest" then b.createdAt - a.createdAt
    else 0
  }

  /** Where a product falls in the chosen order: lower ranks come first. */
  function Rank(key: string, p: Product): int {
    if key == "price-low" then p.price
    else if key == "price-high" then -p.price
    else if key == "newest" then -p.createdAt
    else 0
  }

  /** The comparator is the difference of ranks, so it is a consistent
      comparator for which `Array.prototype.sort` is well defined. */
  lemma CompareIsRankDifference(key: string, a: Product, b: Product)
    ensures Compare(key, a, b) == Rank(key, a) - Rank(key, b)
    ensures Compare(key, a, b) == -Compare(key, b, a)
  {
  }

  /** Places `x` before the first element it does not follow, which keeps equal
      elements in their original order. */
  function Insert(key: string, x: Product, s: seq<Product>): (r: seq<Product>)
    ensures |r| == |s| + 1
    ensures r[0] == x || (s != [] && r[0] == s[0])
  {
    if s == [] || Compare(key, x, s[0]) <= 0 then [x] + s
    else [s[0]] + Insert(key, x, s[1..])
  }

  /** The stable sort `[...products].sort(comparator)`. */
  function Sort(key: string, s: seq<Product>): (r: seq<Product>)
    ensures |r| == |s|
    ensures multiset(r) == multiset(s)
  {
    if s == [] then []
    else
      var t := Sort(key, s[1..]);
      InsertPermutes(key, s[0], t);
      MultisetOfHeadAndTail(s);
      Insert(key, s[0], t)
  }

  /** Neighbours are in order. */
  predicate Sorted(key: string, s: seq<Product>) {
    forall i :: 0 < i < |s| ==> Compare(key, s[i - 1], s[i]) <= 0
  }

  lemma {:induction false} InsertSorted(key: string, x: Product, s: seq<Product>)
    requires Sorted(key, s)
    ensures Sorted(key, Insert(key, x, s))
  {
    if s != [] && Compare(key, x, s[0]) > 0 {
      var tail := s[1..];
      assert Sorted(key, tail) by {
        forall i | 0 < i < |tail| ensures Compare(key, tail[i - 1], tail[i]) <= 0 {
          assert tail[i - 1] == s[i] && tail[i] == s[i + 1];
        }
      }
      InsertSorted(key, x, tail);
      var t := Insert(key, x, tail);
      var r := [s[0]] + t;
      forall i | 0 < i < |r| ensures Compare(key, r[i - 1], r[i]) <= 0 {
        if i == 1 {
          assert r[0] == s[0] && r[1] == t[0];
          if t[0] != x {
            assert tail[0] == s[1];
          }
        } else {
          assert r[i - 1] == t[i - 2] && r[i] == t[i - 1];
        }
      }
    }
  }

  /** Whatever the order chosen, neighbours in the sorted list are in that order. */
  lemma {:induction false} SortSorted(key: string, s: seq<Product>)
    ensures Sorted(key, Sort(key, s))
  {
    if s != [] {
      SortSorted(key, s[1..]);
      InsertSorted(key, s[0], Sort(key, s[1..]));
    }
  }

  /** Sorted neighbours give a sorted list: every earlier product comes no later in the order. */
  lemma {:induction false} SortedPairwise(key: string, s: seq<Product>, i: int, j: int)
    requires Sorted(key, s) && 0 <= i < j < |s|
    ensures Rank(key, s[i]) <= Rank(key, s[j])
    decreases j - i
  {
    if i + 1 < j {
      SortedPairwise(key, s, i + 1, j);
    }
  }

  /** The three named orders as the page promises them: cheapest first, dearest
      first, newest first. */
  lemma SortOrders(key: string, s: seq<Product>, i: int, j: int)
    requires 0 <= i < j < |s|
    ensures key == "price-low" ==> Sort(key, s)[i].price <= Sort(key, s)[j].price
    ensures key == "price-high" ==> Sort(key, s)[i].price >= Sort(key, s)[j].price
    ensures key == "newest" ==> Sort(key, s)[i].createdAt >= Sort(key, s)[j].createdAt
  {
    SortSorted(key, s);
    SortedPairwise(key, Sort(key, s), i, j);
  }

  lemma {:induction false} InsertPermutes(key: string, x: Product, s: seq<Product>)
    ensures multiset(Insert(key, x, s)) == multiset(s) + multiset{x}
  {
    if s != [] && Compare(key, x, s[0]) > 0 {
      InsertPermutes(key, x, s[1..]);
      assert s == [s[0]] + s[1..];
    }
  }

  lemma MultisetOfHeadAndTail(s: seq<Product>)
    requires s != []
    ensures multiset(s) == multiset(s[1..]) + multiset{s[0]}
  {
    assert s == [s[0]] + s[1..];
  }

  /** Sorting neither loses nor invents products. */
  lemma {:induction false} SortPermutes(key: string, s: seq<Product>)
    ensures multiset(Sort(key, s)) == multiset(s)
  {
    if s != [] {
      var t := Sort(key, s[1..]);
      SortPermutes(key, s[1..]);
      InsertPermutes(key, s[0], t);
      assert Sort(key, s) == Insert(key, s[0], t);
      MultisetOfHeadAndTail(s);
    }
  }

  /** The products of one rank, in list order. */
  function OfRank(key: string, v: int, s: seq<Product>): seq<Product> {
    if s == [] then []
    else (if Rank(key, s[0]) == v then [s[0]] else []) + OfRank(key, v, s[1..])
  }

  lemma {:induction false} OfRankAppend(key: string, v: int, a: seq<Product>, b: seq<Product>)
    ensures OfRank(key, v, a + b) == OfRank(key, v, a) + OfRank(key, v, b)
  {
    if a == [] {
      assert a + b == b;
    } else {
      var head := if Rank(key, a[0]) == v then [a[0]] else [];
      assert (a + b)[0] == a[0];
      assert (a + b)[1..] == a[1..] + b;
      assert OfRank(key, v, a + b) == head + OfRank(key, v, a[1..] + b);
      assert OfRank(key, v, a) == head + OfRank(key, v, a[1..]);
      OfRankAppend(key, v, a[1..], b);
    }
  }

  lemma {:induction false} InsertStable(key: string, v: int, x: Product, s: seq<Product>)
    ensures OfRank(key, v, Insert(key, x, s)) == OfRank(key, v, [x]) + OfRank(key, v, s)
  {
    if s == [] || Compare(key, x, s[0]) <= 0 {
      OfRankAppend(key, v, [x], s);
    } else {
      InsertStable(key, v, x, s[1..]);
      OfRankAppend(key, v, [s[0]], Insert(key, x, s[1..]));
      OfRankAppend(key, v, [s[0]], s[1..]);
      assert [s[0]] + s[1..] == s;
      // `s[0]` ranks strictly before `x`, so at most one of them has rank `v`.
      assert OfRank(key, v, [x]) == [] || OfRank(key, v, [s[0]]) == [];
    }
  }

  /** The sort is stable: products the order ranks equally keep their listing order. */
  lemma {:induction false} SortStable(key: string, v: int, s: seq<Product>)
    ensures OfRank(key, v, Sort(key, s)) == OfRank(key, v, s)
  {
    if s != [] {
      SortStable(key, v, s[1..]);
      InsertStable(key, v, s[0], Sort(key, s[1..]));
      OfRankAppend(key, v, [s[0]], s[1..]);
      assert [s[0]] + s[1..] == s;
    }
  }

  /** `featured` and any unknown key leave the listing as it came. */
  lemma FeaturedKeepsOrder(key: string, s: seq<Product>)
    requires key != "price-low" && key != "price-high" && key != "newest"
    ensures Sort(key, s) == s
  {
    SortStable(key, 0, s);
    OfRankIsAll(key, Sort(key, s));
    OfRankIsAll(key, s);
  }

  lemma {:induction false} OfRankIsAll(key: string, s: seq<Product>)
    requires key != "price-low" && key != "price-high" && key != "newest"
    ensures OfRank(key, 0, s) == s
  {
    if s != [] {
      OfRankIsAll(key, s[1..]);
    }
  }

  // ----- Loading -----

  /** The answer of the listing request: a failure, or a body with its `success`
      flag, its `data` when that is an array, and its `message`. */
  datatype ListingAnswer =
    | ListingFailed(failure: Failure)
    | ListingBody(success: bool, data: Option<seq<ApiProduct>>, message: string)

  /** What the mount effect leaves behind. */
  datatype Listing = Listing(
    store: Store,
    navigation: Option<string>,
    requested: bool,
    products: seq<Product>,
    message: Option<string>)

  const ListingDefaultMessage: string := "Could not fetch products."

  /** The mount effect. Without a session the page goes to the login page
      without asking for products; unreadable data is also removed. A body is
      used only when `success` holds and `data` is an array; any failure keeps
      the list empty and shows one message. */
  function FetchProducts(store: Store, answer: ListingAnswer): (r: Listing)
    ensures r.requested <==> store.auth.Stored?
    ensures !r.requested ==> r.navigation == Some("/login") && r.products == [] && r.message.None?
    ensures !r.requested ==> r.store == (if store.auth.Absent? then store else ForgetSession(store))
    ensures r.requested ==> r.store == store && r.navigation.None?
    ensures r.requested ==> (r.message.None? <==> answer.ListingBody? && answer.success && answer.data.Some?)
    ensures r.requested && r.message.None? ==> r.products == ToCatalog(answer.data.value)
    ensures r.message.Some? ==> r.products == [] && r.message.value != ""
  {
    match ReadSession(store.auth)
    case LoggedOut => Listing(store, Some("/login"), false, [], None)
    case Unreadable(_) => Listing(ForgetSession(store), Some("/login"), false, [], None)
    case Token(_) =>
      match answer
      case ListingFailed(e) => Listing(store, None, true, [], Some(Describe(e, ListingDefaultMessage)))
      case ListingBody(ok, data, m) =>
        if ok && data.Some? then Listing(store, None, true, ToCatalog(data.value), None)
        else
          var thrown := Thrown(if m != "" then m else "Failed to parse product data");
          Listing(store, None, true, [], Some(Describe(thrown, ListingDefaultMessage)))
  }

  /** What the grid shows: the filtered products in the chosen order. */
  function Shown(products: seq<Product>, category: string, key: string): (r: seq<Product>)
    ensures multiset(r) == multiset(FilterCategory(products, category))
    ensures Sorted(key, r)
  {
    var f := FilterCategory(products, category);
    SortPermutes(key, f);
    SortSorted(key, f);
    Sort(key, f)
  }
}
