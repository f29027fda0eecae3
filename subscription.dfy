/**
 * The subscription page: which of its three controls it shows for a given
 * user and subscription flag, and what its two click handlers do.
 *
 * Everything the page does to the outside world (a console message, the call
 * into Stripe, the HTTP request, a page navigation) is an `Effect`, and a
 * handler returns the sequence of effects it performs, in order. What the
 * outside world supplies or answers (the build environment, the Stripe handle
 * and its reply, the backend's JSON) is a parameter.
 */
module Subscription {
  import opened Wrappers

  // ---------------------------------------------------------------------------
  // The build environment
  // ---------------------------------------------------------------------------

  /** The environment variables the component reads; `None` is an unset variable. */
  datatype Env = Env(
    stripePublicKey: Option<string>,  // REACT_APP_STRIPE_PUBLIC_KEY
    nodeEnv: Option<string>,          // NODE_ENV
    apiHost: Option<string>)          // REACT_APP_API_HOST

  /**
   * `stripePromise` is non-null exactly when the public key is truthy: set and
   * not the empty string. It is decided once, when the module loads.
   */
  predicate StripeConfigured(env: Env)
    ensures env.stripePublicKey.None? ==> !StripeConfigured(env)
    ensures env.stripePublicKey.Some? ==> (StripeConfigured(env) <==> |env.stripePublicKey.value| > 0)
  {
    env.stripePublicKey.Some? && env.stripePublicKey.value != ""
  }

  /** A template literal prints an unset variable as the text "undefined". */
  function Interpolate(v: Option<string>): string {
    match v
    case Some(s) => s
    case None => "undefined"
  }

  /** The URL `${REACT_APP_API_HOST}<path>`. */
  function ApiUrl(env: Env, path: string): string {
    Interpolate(env.apiHost) + path
  }

  const SuccessPath := "/api/subscribeSuccess"
  const ManagePath := "/api/manageSub"
  const LoginPath := "/login"

  const DevelopmentPrice := "price_1LE6FHCHN72mG1oK4E4NdERI"
  const ProductionPrice := "price_1LE5NqCHN72mG1oKg2Y9pqXb"

  predicate IsDevelopment(env: Env) {
    env.nodeEnv == Some("development")
  }

  /**
   * The price of the one line item: the development price exactly when
   * NODE_ENV is "development", the production price exactly otherwise, so the
   * two environments never share or swap a price.
   */
  function PriceFor(env: Env): (price: string)
    ensures price == DevelopmentPrice <==> IsDevelopment(env)
    ensures price == ProductionPrice <==> !IsDevelopment(env)
  {
    if IsDevelopment(env) then DevelopmentPrice else ProductionPrice
  }

  // ---------------------------------------------------------------------------
  // The user, and the checkout request built for them
  // ---------------------------------------------------------------------------

  /** The `user` value the page works with. */
  datatype User =
    | NoUser                              // null or undefined: nobody is logged in
    | TrueLiteral                         // the constant `true` the component substitutes
    | Account(accountId: Option<string>)  // the store's user object and its `account_id`

  predicate Truthy(user: User) {
    !user.NoUser?
  }

  /**
   * `user.account_id`. Reading it on null would throw, hence the requires; the
   * literal `true` has no such property, so it reads as undefined.
   */
  function AccountIdOf(user: User): (id: Option<string>)
    requires Truthy(user)
    ensures user.TrueLiteral? ==> id == None
    ensures user.Account? ==> id == user.accountId
  {
    match user
    case TrueLiteral => None
    case Account(id) => id
  }

  datatype LineItem = LineItem(price: string, quantity: int)

  /** The argument given to `redirectToCheckout`. */
  datatype CheckoutRequest = CheckoutRequest(
    lineItems: seq<LineItem>,
    mode: string,
    successUrl: string,
    cancelUrl: string,
    clientReferenceId: Option<string>)

  /**
   * The checkout request for `user` on the page at `currentHref`: one line
   * item of quantity one at the environment's price, a subscription, success
   * reported to the backend's callback route, cancel back to this page, and
   * the user's account id as the client reference.
   */
  function BuildCheckoutRequest(env: Env, currentHref: string, user: User): (request: CheckoutRequest)
    requires Truthy(user)
    ensures |request.lineItems| == 1
    ensures request.lineItems[0].quantity == 1
    ensures request.lineItems[0].price == DevelopmentPrice <==> IsDevelopment(env)
    ensures request.lineItems[0].price == ProductionPrice <==> !IsDevelopment(env)
    ensures request.mode == "subscription"
    ensures request.successUrl == ApiUrl(env, SuccessPath)
    ensures request.cancelUrl == currentHref
    ensures user.TrueLiteral? ==> request.clientReferenceId == None
    ensures user.Account? ==> request.clientReferenceId == user.accountId
  {
    CheckoutRequest(
      [LineItem(PriceFor(env), 1)],
      "subscription",
      ApiUrl(env, SuccessPath),
      currentHref,
      AccountIdOf(user))
  }

  /** Only the client reference depends on who the user is; every other field is fixed by the page. */
  lemma CheckoutRequestFixedFields(env: Env, currentHref: string, u1: User, u2: User)
    requires Truthy(u1) && Truthy(u2)
    ensures BuildCheckoutRequest(env, currentHref, u1).(clientReferenceId := None)
         == BuildCheckoutRequest(env, currentHref, u2).(clientReferenceId := None)
  {
  }

  // ---------------------------------------------------------------------------
  // Effects
  // ---------------------------------------------------------------------------

  datatype Effect =
    | Warn(message: string)                        // console.warn
    | RedirectToCheckout(request: CheckoutRequest) // stripe.redirectToCheckout(request)
    | LogError(message: string)                    // console.error
    | Post(url: string, credentials: string)       // fetch(url, { credentials, method: 'POST' })
    | Navigate(target: Option<string>)             // window.location.assign(target), or a link

  /** The checkout requests a trace makes, in order. */
  function CheckoutRequests(trace: seq<Effect>): (requests: seq<CheckoutRequest>)
    ensures forall r :: r in requests <==> RedirectToCheckout(r) in trace
  {
    if trace == [] then []
    else
      assert trace == [trace[0]] + trace[1..];
      (if trace[0].RedirectToCheckout? then [trace[0].request] else []) + CheckoutRequests(trace[1..])
  }

  lemma {:induction false} CheckoutRequestsAppend(a: seq<Effect>, b: seq<Effect>)
    ensures CheckoutRequests(a + b) == CheckoutRequests(a) + CheckoutRequests(b)
  {
    if a != [] {
      assert (a + b)[1..] == a[1..] + b;
      CheckoutRequestsAppend(a[1..], b);
    } else {
      assert a + b == b;
    }
  }

  /** Nothing but console output: no request to Stripe or the backend and no navigation. */
  predicate ConsoleOnly(trace: seq<Effect>) {
    forall e :: e in trace ==> e.Warn? || e.LogError?
  }

  /**
   * The trace ends with a checkout request that did not come back with an
   * error: `redirectToCheckout` succeeded and the browser left the page for
   * Stripe's hosted checkout.
   */
  predicate LeftForCheckout(trace: seq<Effect>) {
    |trace| > 0 && trace[|trace| - 1].RedirectToCheckout?
  }

  // ---------------------------------------------------------------------------
  // handleSubscribe
  // ---------------------------------------------------------------------------

  datatype StripeError = StripeError(message: string)

  /** What `redirectToCheckout` resolves to when it does not leave the page. */
  datatype CheckoutResult = CheckoutResult(error: Option<StripeError>)

  /** A loaded Stripe client, abstracted to the answer its `redirectToCheckout` gives. */
  datatype StripeHandle = StripeHandle(redirectResult: CheckoutResult)

  const NotConfiguredWarning := "Stripe integration is not configured, cannot subscribe"

  /**
   * The effects of `handleSubscribe(user)`, where `handle` is what awaiting
   * `stripePromise` yields (`None` when `loadStripe` resolved to null).
   * Without a key it only warns. With a key but no handle it does nothing.
   * With both it makes exactly one checkout request, first, and the only
   * thing that can follow is one log of the error that request reported; it
   * leaves the page for the checkout exactly when no error is reported.
   */
  function SubscribeEffects(env: Env, currentHref: string, user: User, handle: Option<StripeHandle>): (trace: seq<Effect>)
    requires StripeConfigured(env) && handle.Some? ==> Truthy(user)
    ensures !StripeConfigured(env) ==> trace == [Warn(NotConfiguredWarning)]
    ensures StripeConfigured(env) && handle.None? ==> trace == []
    ensures ConsoleOnly(trace) <==> !(StripeConfigured(env) && handle.Some?)
    ensures StripeConfigured(env) && handle.Some? ==>
              1 <= |trace| <= 2 &&
              trace[0] == RedirectToCheckout(BuildCheckoutRequest(env, currentHref, user)) &&
              CheckoutRequests(trace) == [BuildCheckoutRequest(env, currentHref, user)]
    ensures forall i :: 1 <= i < |trace| ==> trace[i].LogError?
    ensures !(StripeConfigured(env) && handle.Some?) ==> CheckoutRequests(trace) == []
    ensures forall e :: e in trace ==> !e.Post? && !e.Navigate?
    ensures forall m :: LogError(m) in trace <==>
              StripeConfigured(env) && handle.Some? && handle.value.redirectResult.error == Some(StripeError(m))
    ensures LeftForCheckout(trace) <==>
              StripeConfigured(env) && handle.Some? && handle.value.redirectResult.error.None?
  {
    if !StripeConfigured(env) then
      [Warn(NotConfiguredWarning)]
    else
      match handle
      case None => []
      case Some(stripe) =>
        var request := [RedirectToCheckout(BuildCheckoutRequest(env, currentHref, user))];
        var logged := match stripe.redirectResult.error
                      case Some(e) => [LogError(e.message)]
                      case None => [];
        CheckoutRequestsAppend(request, logged);
        request + logged
  }

  /** `handleSubscribe`, step by step. */
  method HandleSubscribe(env: Env, currentHref: string, user: User, handle: Option<StripeHandle>)
    returns (trace: seq<Effect>)
    requires StripeConfigured(env) && handle.Some? ==> Truthy(user)
    ensures trace == SubscribeEffects(env, currentHref, user, handle)
  {
    if !StripeConfigured(env) {
      trace := [Warn(NotConfiguredWarning)];
      return;
    }
    trace := [];
    // `stripe?.redirectToCheckout(...)`: with no handle neither the request
    // nor its argument is evaluated, and the result is undefined.
    if handle.Some? {
      var stripe := handle.value;
      var request := BuildCheckoutRequest(env, currentHref, user);
      trace := trace + [RedirectToCheckout(request)];
      var result := stripe.redirectResult;
      if result.error.Some? {
        trace := trace + [LogError(result.error.value.message)];
      }
    }
  }

  // ---------------------------------------------------------------------------
  // handleManage
  // ---------------------------------------------------------------------------

  /** The parsed JSON body of the `/api/manageSub` response; its `url` may be missing. */
  datatype PortalSession = PortalSession(url: Option<string>)

  /**
   * The effects of `handleManage`: exactly one credentialed POST to the
   * backend's manage route, then a navigation to whatever the response's `url`
   * field holds, missing or not; nothing is logged and no checkout is started.
   */
  function ManageEffects(env: Env, session: PortalSession): (trace: seq<Effect>)
    ensures |trace| == 2
    ensures trace[0] == Post(ApiUrl(env, ManagePath), "include")
    ensures trace[1] == Navigate(session.url)
    ensures CheckoutRequests(trace) == []
    ensures !ConsoleOnly(trace)
  {
    var trace := [Post(ApiUrl(env, ManagePath), "include"), Navigate(session.url)];
    assert trace[0] in trace;
    CheckoutRequestsAppend(trace[..1], trace[1..]);
    assert trace[..1] + trace[1..] == trace;
    trace
  }

  /** `handleManage`, step by step. */
  method HandleManage(env: Env, session: PortalSession) returns (trace: seq<Effect>)
    ensures trace == ManageEffects(env, session)
  {
    trace := [Post(ApiUrl(env, ManagePath), "include")];
    // `await res.json()` yields `session`; its `url` is used unchecked.
    trace := trace + [Navigate(session.url)];
  }

  // ---------------------------------------------------------------------------
  // The view
  // ---------------------------------------------------------------------------

  /** The three controls the right-hand column can show. */
  datatype Control = Manage | Subscribe | Login

  /**
   * The view mode: manage for a logged-in subscriber, subscribe for a
   * logged-in non-subscriber, login for anyone not logged in, whatever their
   * subscription flag.
   */
  function ChooseControl(user: bool, isSubscribed: bool): (control: Control)
    ensures control == Manage <==> user && isSubscribed
    ensures control == Subscribe <==> user && !isSubscribed
    ensures control == Login <==> !user
  {
    if user && isSubscribed then Manage else if user then Subscribe else Login
  }

  /** The component replaces the store's `user` by `true` before anything reads it. */
  function ComponentUser(propsUser: User): (user: User)
    ensures Truthy(user) && AccountIdOf(user) == None
  {
    TrueLiteral
  }

  /**
   * The control the component as written shows: never the login control, and
   * the manage control exactly for a subscriber, whoever the store's user is.
   */
  function ComponentControl(propsUser: User, isSubscribed: bool): (control: Control)
    ensures control != Login
    ensures control == Manage <==> isSubscribed
  {
    ChooseControl(Truthy(ComponentUser(propsUser)), isSubscribed)
  }

  /** The key of a control's label in the strings table. */
  function LabelKey(control: Control): string {
    match control
    case Manage => "subscriptions_button_manage"
    case Subscribe => "subscriptions_button_subscribe"
    case Login => "subscriptions_button_login"
  }

  /** What clicking the control does: run one of the two handlers, or follow the login link. */
  datatype Action = RunManage | RunSubscribe(user: User) | FollowLink(href: string)

  /** The one control the right-hand column renders, with the heading above it if any. */
  datatype Widget = Widget(control: Control, heading: Option<string>, labelKey: string, action: Action)

  /**
   * The right-hand column for `user` and `isSubscribed`: it agrees with the
   * view mode, labels the control with that control's key, heads only the
   * manage control, wires manage to `handleManage`, subscribe to
   * `handleSubscribe` with this same user, and login to the backend's login
   * page.
   */
  function Render(env: Env, user: User, isSubscribed: bool): (widget: Widget)
    ensures widget.control == ChooseControl(Truthy(user), isSubscribed)
    ensures widget.labelKey == LabelKey(widget.control)
    ensures widget.heading.Some? <==> widget.control == Manage
    ensures widget.action.RunManage? <==> widget.control == Manage
    ensures widget.action.RunSubscribe? <==> widget.control == Subscribe
    ensures widget.action.RunSubscribe? ==> widget.action.user == user && Truthy(user)
    ensures widget.action.FollowLink? ==> widget.action.href == ApiUrl(env, LoginPath)
  {
    if Truthy(user) && isSubscribed then
      Widget(Manage, Some("subscriptions_h4"), LabelKey(Manage), RunManage)
    else if Truthy(user) then
      Widget(Subscribe, None, LabelKey(Subscribe), RunSubscribe(user))
    else
      Widget(Login, None, LabelKey(Login), FollowLink(ApiUrl(env, LoginPath)))
  }

  /** The effects of clicking the rendered control. */
  method Click(widget: Widget, env: Env, currentHref: string, handle: Option<StripeHandle>, session: PortalSession)
    returns (trace: seq<Effect>)
    requires widget.action.RunSubscribe? && StripeConfigured(env) && handle.Some? ==> Truthy(widget.action.user)
    ensures widget.action.RunManage? ==> trace == ManageEffects(env, session)
    ensures widget.action.RunSubscribe? ==> trace == SubscribeEffects(env, currentHref, widget.action.user, handle)
    ensures widget.action.FollowLink? ==> trace == [Navigate(Some(widget.action.href))]
  {
    match widget.action
    case RunManage =>
      trace := HandleManage(env, session);
    case RunSubscribe(user) =>
      trace := HandleSubscribe(env, currentHref, user, handle);
    case FollowLink(href) =>
      trace := [Navigate(Some(href))];
  }

  /**
   * Rendering the page for the store's `user` and clicking its control: a
   * subscriber opens the portal, a non-subscriber starts a checkout that
   * carries their own account id, and a visitor goes to the login page.
   */
  method PageClick(env: Env, user: User, isSubscribed: bool, currentHref: string,
                   handle: Option<StripeHandle>, session: PortalSession)
    returns (widget: Widget, trace: seq<Effect>)
    ensures widget == Render(env, user, isSubscribed)
    ensures Truthy(user) && isSubscribed ==> trace == ManageEffects(env, session)
    ensures Truthy(user) && !isSubscribed ==> trace == SubscribeEffects(env, currentHref, user, handle)
    ensures !Truthy(user) ==> trace == [Navigate(Some(ApiUrl(env, LoginPath)))]
    ensures user.Account? ==> forall q :: q in CheckoutRequests(trace) ==> q.clientReferenceId == user.accountId
  {
    widget := Render(env, user, isSubscribed);
    trace := Click(widget, env, currentHref, handle, session);
  }

  /**
   * The component as written: the store's user is replaced by `true`, so the
   * login control never shows, a subscriber opens the portal, and every
   * checkout request it makes carries no client reference at all.
   */
  method ComponentClick(env: Env, propsUser: User, isSubscribed: bool, currentHref: string,
                        handle: Option<StripeHandle>, session: PortalSession)
    returns (widget: Widget, trace: seq<Effect>)
    ensures widget.control == ComponentControl(propsUser, isSubscribed)
    ensures widget.control != Login
    ensures isSubscribed ==> trace == ManageEffects(env, session)
    ensures !isSubscribed ==> trace == SubscribeEffects(env, currentHref, TrueLiteral, handle)
    ensures forall q :: q in CheckoutRequests(trace) ==> q.clientReferenceId == None
  {
    widget, trace := PageClick(env, ComponentUser(propsUser), isSubscribed, currentHref, handle, session);
  }

  /**
   * A logged-in customer with account id `id`, on a configured page with
   * Stripe loaded, asks the component for a checkout: the request it sends
   * does not carry `id`, so the backend cannot match the purchase to them.
   */
  lemma OverrideLosesAccountId(env: Env, currentHref: string, id: string, result: CheckoutResult)
    requires StripeConfigured(env)
    ensures var requests := CheckoutRequests(SubscribeEffects(env, currentHref,
                              ComponentUser(Account(Some(id))), Some(StripeHandle(result))));
            |requests| == 1 && requests[0].clientReferenceId != Some(id)
  {
  }
}
