# Subscription page: view-mode choice, checkout and billing-portal flows

A Dafny model of the decision logic inside the React subscription page
(`src/components/Subscription/Subscription.jsx`):

- the **view mode**: the right-hand column shows exactly one control, "manage"
  for a logged-in subscriber, "subscribe" for a logged-in non-subscriber and
  "login" for a visitor. The component as written replaces the store's `user`
  by `true` first, so it never shows the login control;
- **`handleSubscribe`**: it warns and stops when no Stripe public key is
  configured. Otherwise it asks the loaded Stripe client for a hosted checkout.
  The request is built from fixed fields: one line item of quantity 1 at the
  environment's price, mode `subscription`, a success URL on the backend, the
  current page as cancel URL, and the user's `account_id` as client reference.
  If Stripe reports an error, the handler logs its message;
- **`handleManage`**: one credentialed `POST` to `<api host>/api/manageSub`,
  then a navigation to the `url` field of the JSON answer, unchecked.

Everything the page does to the outside world is an `Effect` (`Warn`,
`RedirectToCheckout`, `LogError`, `Post`, `Navigate`). Each handler returns
the sequence of effects it performs. What the outside world supplies is a
parameter:
- the environment variables (`Env`; an unset variable is `None`);
- what awaiting the Stripe promise yields (`Option<StripeHandle>`);
- Stripe's reply (`CheckoutResult`);
- the backend's parsed JSON (`PortalSession`).

The handlers are methods proved against the specification functions
`SubscribeEffects` and `ManageEffects`. Those functions' contracts state what
the page promises.

Files: `wrappers.dfy` (`Option`), `subscription.dfy` (module `Subscription`).

JavaScript details the model keeps:
- an empty public key is falsy, so it disables checkout like a missing one;
- an unset API host prints as `undefined` in the URLs;
- `stripe?.redirectToCheckout(...)` does nothing, and builds no request, when
  the Stripe promise resolved to null;
- `true.account_id` is undefined.

`handleManage` has no error handling, so `ManageEffects` navigates to
`session.url` even when it is `None`.

## Model

| member | source | states |
|---|---|---|
| `Subscription.ChooseControl` | src/components/Subscription/Subscription.jsx:120-142 | manage iff logged in and subscribed, subscribe iff logged in and not subscribed, login iff not logged in (so exactly one control) |
| `Subscription.ComponentUser` | src/components/Subscription/Subscription.jsx:86 | the user the component works with is truthy and has no account id, whatever the store supplies |
| `Subscription.ComponentControl` | src/components/Subscription/Subscription.jsx:86-142 | as written, the login control is unreachable, and manage is shown exactly when subscribed |
| `Subscription.Render` | src/components/Subscription/Subscription.jsx:120-142 | the rendered control agrees with the view mode; its label key is that control's; only manage has the heading; manage runs handleManage, subscribe runs handleSubscribe with the same (truthy) user, login links to `<host>/login` |
| `Subscription.StripeConfigured` | src/components/Subscription/Subscription.jsx:14-16 | checkout is enabled only when the public key is set, and then exactly when it is non-empty (JavaScript truthiness of the key) |
| `Subscription.AccountIdOf` | src/components/Subscription/Subscription.jsx:75 | `user.account_id`: absent for the literal `true`, the account's own id for a store user |
| `Subscription.PriceFor` | src/components/Subscription/Subscription.jsx:65-68 | the development price exactly when NODE_ENV is "development", the production price exactly otherwise: never swapped or shared |
| `Subscription.BuildCheckoutRequest` | src/components/Subscription/Subscription.jsx:62-76 | exactly one line item, quantity 1, price chosen by environment (both directions), mode "subscription", success URL `<host>/api/subscribeSuccess`, cancel URL the current page, client reference the user's account id (absent for `true`) |
| `Subscription.CheckoutRequestFixedFields` | src/components/Subscription/Subscription.jsx:62-76 | two users get requests that differ at most in the client reference |
| `Subscription.SubscribeEffects` | src/components/Subscription/Subscription.jsx:56-83 | no key: only the warning; key but no handle: nothing; key and handle: the checkout request with the built fields comes first and is the only one, followed at most by one error log; console output only exactly when no handle was obtained; never a POST or a navigation of its own; an error message is logged exactly when Stripe reports that error; the page is left for the checkout exactly when configured, loaded and no error is reported |
| `Subscription.HandleSubscribe` | src/components/Subscription/Subscription.jsx:56-83 | the step-by-step handler performs exactly the effects `SubscribeEffects` specifies |
| `Subscription.ManageEffects` | src/components/Subscription/Subscription.jsx:88-97 | exactly one credentialed POST to `<host>/api/manageSub`, then navigation to the response's `url` as is; no checkout, no logging |
| `Subscription.HandleManage` | src/components/Subscription/Subscription.jsx:88-97 | the step-by-step handler performs exactly the effects `ManageEffects` specifies |
| `Subscription.Click` | src/components/Subscription/Subscription.jsx:123-141 | clicking runs the handler wired to the control: manage, subscribe with the control's user, or navigation to the login link |
| `Subscription.PageClick` | src/components/Subscription/Subscription.jsx:120-142 | with the store's user: subscriber opens the portal, non-subscriber checks out, visitor goes to login; an account's checkout requests carry its own account id |
| `Subscription.ComponentClick` | src/components/Subscription/Subscription.jsx:85-142 | as written: never the login control; a subscriber gets the portal effects; a non-subscriber gets handleSubscribe(true); every checkout request has no client reference |
| `Subscription.OverrideLosesAccountId` | src/components/Subscription/Subscription.jsx:75-86 | a logged-in account with id `id`, configured and loaded, sends exactly one checkout request whose client reference is not `id` |

## Findings

| source | as written | input that shows it | evidently intended | confidence | as-written member | corrected member |
|---|---|---|---|---|---|---|
| src/components/Subscription/Subscription.jsx:86 | `user = true` replaces the store's user. The subscribe button then calls `handleSubscribe(true)`, so `clientReferenceId` is `true.account_id`, which is undefined. Visitors never see the login control. | a logged-in non-subscriber whose `account_id` is "42", with the Stripe key set and Stripe loaded | the checkout carries `clientReferenceId` "42", so the backend can match the purchase to the account; visitors see the login control | medium (the override may be deliberate debug code); not executed | `Subscription.ComponentClick`, `Subscription.OverrideLosesAccountId` | `Subscription.PageClick` |

## Left out

- Layout and styling (styled-components, headings, lists): presentation only. The strings table is reduced to label keys.
- The Redux wiring in `mapStateToProps`: `user` and `isSubscribed` are inputs. `loading`, `error` and `strings` are unused by the logic.
- Stripe internals (`loadStripe`, `redirectToCheckout`): foreign calls. The loaded client is reduced to the reply its checkout call gives. A successful redirect unloads the page; the model shows it as a reply without an error, after which nothing else happens.
- `fetch`, `res.json()`, `window.location`: browser I/O, recorded as effects with abstract answers. A rejected `fetch` or unparsable JSON ends `handleManage` with an unhandled rejection. The model does not include that path.
- Subscription.HandleSubscribe: requires a truthy user when it gets as far as building the request. On null, `user.account_id` throws. The component only calls it from the branch where `user` is truthy.
- Promise scheduling, `useCallback` memoisation and its dependency list, and repeated clicks: runtime concerns. Each click is modelled as one complete run of its handler.
