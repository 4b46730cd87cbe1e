/**
 * The application shell: the routing effect that normalises the current page
 * against the authentication state, the content switch with its two
 * redirects, the basket badge and the greeting name in the header.
 */
module App {
  import opened Common
  import Checkout
  import OrderHistory

  const AuthPage: string := "auth"
  const ProductsPage: string := "products"
  const CartPage: string := "cart"
  const CheckoutPage: string := "checkout"
  const HistoryPage: string := "history"
  const DetailsPage: string := "details"
  const DashboardPage: string := "restaurant-dashboard"

  /** The routing state: the current page and the order chosen for tracking. */
  datatype Route = Route(page: string, selected: Option<OrderHistory.Segment>)

  /** What the routing state should look like once it has settled. */
  ghost predicate Settled(authReady: bool, user: Option<User>, r: Route)
  {
    authReady ==>
      if user.None? then r.page == AuthPage || r.page == DashboardPage
      else r.page != AuthPage && (r.page == DetailsPage <==> r.selected.Some?)
  }

  // ---------------------------------------------------------------------
  // The routing effect
  // ---------------------------------------------------------------------

  /**
   * One run of the routing effect.  The selection test reads the page as it
   * was when the effect started, not the page it has just set.
   */
  function RouteStep(authReady: bool, user: Option<User>, r: Route): (r': Route)
    ensures !authReady ==> r' == r
    ensures user.None? ==> r'.selected == r.selected
    ensures authReady && user.None? ==> (r'.page == r.page <==> r.page == AuthPage || r.page == DashboardPage)
    ensures r'.page != r.page ==> authReady && r'.page in [AuthPage, ProductsPage, HistoryPage]
    ensures r'.selected != r.selected ==> authReady && user.Some? && r.page != DetailsPage && r'.selected.None?
    ensures authReady && user.Some? ==>
      && (r.page == AuthPage ==> r'.page == ProductsPage)
      && (r.page == DetailsPage && r.selected.None? ==> r'.page == HistoryPage)
      && (r'.page != r.page ==> r.page == AuthPage || (r.page == DetailsPage && r.selected.None?))
      && (r'.selected.None? <==> r.selected.None? || r.page != DetailsPage)
  {
    if !authReady then r
    else if user.None? then
      if r.page != AuthPage && r.page != DashboardPage then r.(page := AuthPage) else r
    else
      var page :=
        if r.page == AuthPage then ProductsPage
        else if r.page == DetailsPage && r.selected.None? then HistoryPage
        else r.page;
      var selected := if r.page != DetailsPage && r.selected.Some? then None else r.selected;
      Route(page, selected)
  }

  /**
   * After one run of the effect the signed-out user is on the sign-in page or
   * the owner dashboard, and the signed-in user is off the sign-in page and
   * has an order selected exactly while on the details page.
   */
  lemma RouteStepSettles(authReady: bool, user: Option<User>, r: Route)
    ensures Settled(authReady, user, RouteStep(authReady, user, r))
  {
  }

  /** A settled state is left alone, so the effect re-runs at most once more. */
  lemma SettledIsFixed(authReady: bool, user: Option<User>, r: Route)
    requires Settled(authReady, user, r)
    ensures RouteStep(authReady, user, r) == r
  {
  }

  lemma RouteStepIdempotent(authReady: bool, user: Option<User>, r: Route)
    ensures RouteStep(authReady, user, RouteStep(authReady, user, r)) == RouteStep(authReady, user, r)
  {
    RouteStepSettles(authReady, user, r);
    SettledIsFixed(authReady, user, RouteStep(authReady, user, r));
  }

  // ---------------------------------------------------------------------
  // The content switch
  // ---------------------------------------------------------------------

  /** What the main area shows; `Redirect` is a `setPage` call that renders nothing. */
  datatype View =
    | Loading
    | OwnerDashboard
    | SignIn
    | Listing
    | Basket
    | CheckoutForm
    | History
    | Tracking(order: OrderHistory.Segment)
    | Redirect(to: string)

  function Render(authReady: bool, user: Option<User>, page: string, cart: seq<Checkout.CartItem>,
                  selected: Option<OrderHistory.Segment>): (v: View)
    ensures !authReady <==> v == Loading
    ensures authReady && page == DashboardPage <==> v == OwnerDashboard
    ensures v.Redirect? <==>
      authReady && user.Some? && ((page == CheckoutPage && |cart| == 0) || (page == DetailsPage && selected.None?))
    ensures v.Redirect? ==> v.to == (if page == CheckoutPage then ProductsPage else HistoryPage)
    ensures v.Tracking? ==> page == DetailsPage && selected == Some(v.order)
    ensures user.None? ==> v in {Loading, OwnerDashboard, SignIn}
  {
    if !authReady then Loading
    else if page == DashboardPage then OwnerDashboard
    else if user.None? then SignIn
    else if page == ProductsPage then Listing
    else if page == CartPage then Basket
    else if page == CheckoutPage then (if |cart| == 0 then Redirect(ProductsPage) else CheckoutForm)
    else if page == HistoryPage then History
    else if page == DetailsPage then (if selected.None? then Redirect(HistoryPage) else Tracking(selected.value))
    else Listing
  }

  /** Once the routing effect has run, the details page never has to redirect. */
  lemma NoHistoryRedirectAfterRouting(authReady: bool, user: Option<User>, r: Route, cart: seq<Checkout.CartItem>)
    ensures var r' := RouteStep(authReady, user, r);
      Render(authReady, user, r'.page, cart, r'.selected) != Redirect(HistoryPage)
  {
    RouteStepSettles(authReady, user, r);
  }

  /** Every page name outside the switch shows the restaurant listing. */
  lemma UnknownPageShowsListing(user: User, page: string, cart: seq<Checkout.CartItem>, selected: Option<OrderHistory.Segment>)
    requires page !in [ProductsPage, CartPage, CheckoutPage, HistoryPage, DetailsPage, DashboardPage]
    ensures Render(true, Some(user), page, cart, selected) == Listing
  {
  }

  // ---------------------------------------------------------------------
  // Header and navigation figures
  // ---------------------------------------------------------------------

  function Quantity(item: Checkout.CartItem): int { item.quantity }

  /** The badge figure on the basket tab. */
  function CartItemCount(cart: seq<Checkout.CartItem>): (n: int)
    ensures |cart| == 0 ==> n == 0
    ensures |cart| == 1 ==> n == cart[0].quantity
  {
    assert |cart| == 1 ==> cart[..0] == [] && SumBy(cart[..0], Quantity) == 0;
    SumBy(cart, Quantity)
  }

  /** `item.count > 0 && item.key === 'cart'`, for the basket tab. */
  predicate BadgeShown(cart: seq<Checkout.CartItem>)
    ensures BadgeShown(cart) ==> |cart| > 0
  {
    CartItemCount(cart) > 0
  }

  lemma CartItemCountAppend(a: seq<Checkout.CartItem>, b: seq<Checkout.CartItem>)
    ensures CartItemCount(a + b) == CartItemCount(a) + CartItemCount(b)
  {
    SumByAppend(a, b, Quantity);
  }

  /**
   * With every quantity at least one, the count is at least the number of
   * lines, and the badge shows exactly when the basket is not empty.
   */
  lemma {:induction false} CartItemCountBounds(cart: seq<Checkout.CartItem>)
    requires forall i :: 0 <= i < |cart| ==> cart[i].quantity >= 1
    ensures CartItemCount(cart) >= |cart|
    ensures BadgeShown(cart) <==> |cart| > 0
    decreases |cart|
  {
    if |cart| > 0 {
      var rest := cart[..|cart| - 1];
      assert forall i :: 0 <= i < |rest| ==> rest[i] == cart[i];
      CartItemCountBounds(rest);
    }
  }

  /** The name in the greeting: the e-mail's local part, else a short id, else "Guest". */
  function DisplayName(user: Option<User>): (r: string)
    ensures user.Some? && user.value.email != "" ==>
      r <= user.value.email && '@' !in r && (r == user.value.email || user.value.email[|r|] == '@')
    ensures user.Some? && user.value.email == "" && user.value.id != "" ==>
      |r| == 5 + (if |user.value.id| < 4 then |user.value.id| else 4) && r[..5] == "User-" && r[5..] <= user.value.id
    ensures (user.None? || (user.value.email == "" && user.value.id == "")) ==> r == "Guest"
  {
    if user.Some? && user.value.email != "" then BeforeFirst(user.value.email, '@')
    else if user.Some? && user.value.id != "" then "User-" + Take(user.value.id, 4)
    else "Guest"
  }

  // ---------------------------------------------------------------------
  // The shell's state
  // ---------------------------------------------------------------------

  class AppShell {
    var page: string
    var cart: seq<Checkout.CartItem>
    var selectedOrder: Option<OrderHistory.Segment>

    function Current(): Route
      reads this
    {
      Route(page, selectedOrder)
    }

    constructor ()
      ensures page == ProductsPage && cart == [] && selectedOrder.None?
    {
      page := ProductsPage;
      cart := [];
      selectedOrder := None;
    }

    /** The routing effect, run against the current authentication state. */
    method RunRoutingEffect(authReady: bool, user: Option<User>)
      modifies this
      ensures Current() == RouteStep(authReady, user, old(Current()))
      ensures cart == old(cart)
      ensures Settled(authReady, user, Current())
    {
      RouteStepSettles(authReady, user, Current());
      if !authReady {
        return;
      }
      if user.None? {
        if page != AuthPage && page != DashboardPage {
          page := AuthPage;
        }
        return;
      }
      var startPage := page;
      if startPage == AuthPage {
        page := ProductsPage;
      } else if startPage == DetailsPage && selectedOrder.None? {
        page := HistoryPage;
      }
      if startPage != DetailsPage && selectedOrder.Some? {
        selectedOrder := None;
      }
    }

    /** `renderContent`: a redirect moves to its page, anything else changes nothing. */
    method RenderContent(authReady: bool, user: Option<User>) returns (v: View)
      modifies this
      ensures v == Render(authReady, user, old(page), old(cart), old(selectedOrder))
      ensures page == (if v.Redirect? then v.to else old(page))
      ensures cart == old(cart) && selectedOrder == old(selectedOrder)
    {
      v := Render(authReady, user, page, cart, selectedOrder);
      if v.Redirect? {
        page := v.to;
      }
    }

    /** Navigation: the tabs, the owner button and the pages' own `setPage` calls. */
    method SetPage(to: string)
      modifies this
      ensures page == to && cart == old(cart) && selectedOrder == old(selectedOrder)
    {
      page := to;
    }

    /** `handleSignOut`, once the sign-out has gone through. */
    method SignOut()
      modifies this
      ensures cart == [] && page == AuthPage && selectedOrder == old(selectedOrder)
      ensures CartItemCount(cart) == 0 && !BadgeShown(cart)
    {
      cart := [];
      page := AuthPage;
    }
  }
}
