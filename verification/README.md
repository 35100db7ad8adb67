# noLuckyDays storefront: gate, relay and cart logic in Dafny

This project models the decision logic of a single-product storefront page:

- **the subscription relay** (`POST /api/subscribe`): method check, validation of the
  `{email, phone}` body, the contacts-API key check, phone normalisation (`+`, then the
  digits, with a `1` inserted before ten digits that do not start with `1`), and the policy that every
  well-formed POST is answered with `success: true` whatever the contacts API does
  (`subscribe.dfy`, module `Subscribe`, pure functions);
- **the early-access lock screen**: the signup and password handlers, the form toggle,
  and the component state they change, with browser storage as a map and `onUnlock` as a
  flag (`gate_lock_screen.dfy`, module `GateLock`: transition functions on a `GateState`
  value, and class `GateLockScreen` whose methods perform them in place);
- **the product page**: the loader's gate configuration and error cases, the rule
  choosing spinner, lock screen or storefront, the quantity selector, the cart item count,
  and the add-to-cart, buy-now and line-quantity handlers, which choose a Storefront
  mutation and mirror the cart it returns (`product_page.dfy`, module `ProductPage`:
  pure functions, transition functions on a `PageState` value, and class `Index`);
- **properties across components** (`gate_flow.dfy`, module `GateFlow`): a password
  unlock survives a reload; a valid signup sent through the real relay is acknowledged
  and never unlocks.

Every external call is a parameter: the contacts API is a `Downstream` outcome
(accepted, refused, threw), the relay's answer to the lock screen is a `RelayResult`,
the product query is an optional `QueryReply`, and each cart mutation is a
`MutationReply` (threw, or returned a possibly null cart). The handlers return the
request they issued, so the model records which mutation was chosen with which
variables, and how local state is replaced by the answer.

JavaScript truthiness is written out: an absent or empty string is falsy
(`Options.Truthy`, `Subscribe.Present`), and a body field may also be a non-string value.

Two behaviours of the relay are easy to miss:

- a body that is not JSON, or is `null`, throws inside the `try` and is answered
  `success: true` (app/routes/api.subscribe.tsx:8-9, 73-77); so is a phone that is not a
  string once a key is configured, because `phone.replace` throws; `Subscribe.Action`
  models both;
- the relay's `action` answers a non-POST with `success: false` and the error, while its
  `loader` answers a GET with the error alone and no `success` field.

## Model

| member | source | states |
|---|---|---|
| `Subscribe.StripNonDigits` | app/routes/api.subscribe.tsx:25 | the stripped phone holds only the characters 0-9 and is no longer than the input |
| `Subscribe.StripAppend` | app/routes/api.subscribe.tsx:25 | stripping distributes over concatenation, so the digits keep their original order |
| `Subscribe.StripKeepsDigits` | app/routes/api.subscribe.tsx:25 | a string of digits is left unchanged |
| `Subscribe.StripEmptyIff` | app/routes/api.subscribe.tsx:25 | the stripped phone is empty exactly when the input contains no digit |
| `Subscribe.NormalizePhone` | app/routes/api.subscribe.tsx:25-29 | the result is `+` then digits, ending in exactly the stripped digits, one or two characters longer than them, two (with an inserted `1`) exactly when there are 10 digits not starting with `1` |
| `Subscribe.TenDigitsGetCountryCode` | app/routes/api.subscribe.tsx:26-27 | 10 digits not starting with `1` become `+1` followed by those digits |
| `Subscribe.StripNormalized` | app/routes/api.subscribe.tsx:25-29 | stripping a normalised phone gives back everything after its `+` |
| `Subscribe.NormalizeIdempotent` | app/routes/api.subscribe.tsx:25-29 | normalising a normalised phone returns it unchanged |
| `Subscribe.Success` | app/routes/api.subscribe.tsx:72 | the acknowledgement is status 200 with `success: true` and no error |
| `Subscribe.Action` | app/routes/api.subscribe.tsx:3-78 | non-POST gives 405 `Method not allowed` with nothing sent; status 400 `Email and phone are required` exactly for a POST whose parsed body lacks a truthy email or phone; every other POST gets `success: true`; a contact is sent exactly when both fields are present, the phone is a string and a key is configured, and it carries the email, the normalised phone and the two fixed tags |
| `Subscribe.DownstreamIgnored` | app/routes/api.subscribe.tsx:65-77 | the contacts API's outcome (ok, not ok, thrown) never changes the response |
| `Subscribe.Loader` | app/routes/api.subscribe.tsx:81-83 | a GET is answered 405 with the error and no success field |
| `Subscribe.RelayExamples` | app/routes/api.subscribe.tsx:11-22 | a valid signup without a key is acknowledged with nothing sent; a body without an email gets the 400 reply |
| `GateLock.Initial` | app/components/GateLockScreen.tsx:10-16 | the mounted form is empty (email, phone, password, error and success message all `''`), not loading, on the signup form, consistent, and not unlocked |
| `GateLock.RelayError` | app/components/GateLockScreen.tsx:54-58 | the shown error is never empty: the relay's own truthy error if it gave one, else the generic retry message |
| `GateLock.Signup` | app/components/GateLockScreen.tsx:18-62 | empty email or phone, or an email without `@`, only sets the matching error (no request, loading untouched); otherwise the request carries exactly the email and phone and loading ends false; on success the thank-you message is set and both fields cleared, on failure or a throw the relay error is shown and the fields kept; storage, password and the unlock flag never change |
| `GateLock.SubmitPassword` | app/components/GateLockScreen.tsx:64-81 | unlocks exactly when the password is non-empty, a password is configured and they are equal, and then persists `gateUnlocked=true` and `gateMethod=password` and clears the error; otherwise only the error is set (empty vs. invalid password); the consistency invariant is kept |
| `GateLock.Toggle` | app/components/GateLockScreen.tsx:160-168 | available only with a configured password; flips the form, clears error and success message, changes nothing else |
| `GateLock.GateLockScreen.constructor` | app/components/GateLockScreen.tsx:9-16 | the component starts in the initial state with the given password and storage |
| `GateLock.GateLockScreen.EditEmail` | app/components/GateLockScreen.tsx:131 | typing replaces the email and nothing else |
| `GateLock.GateLockScreen.EditPhone` | app/components/GateLockScreen.tsx:141 | typing replaces the phone and nothing else |
| `GateLock.GateLockScreen.EditPassword` | app/components/GateLockScreen.tsx:108 | typing replaces the password and nothing else |
| `GateLock.GateLockScreen.HandleSignupSubmit` | app/components/GateLockScreen.tsx:18-62 | the new state and the request made are those of `Signup`; the invariant is kept |
| `GateLock.GateLockScreen.HandlePasswordSubmit` | app/components/GateLockScreen.tsx:64-81 | the new state is that of `SubmitPassword`; `onUnlock` is called only after the unlock is persisted |
| `GateLock.GateLockScreen.TogglePasswordForm` | app/components/GateLockScreen.tsx:164-168 | the new state is that of `Toggle` |
| `ProductPage.GateEnabled` | app/routes/_index.tsx:250 | the gate is enabled exactly when the shop's metafield value is the string `true` |
| `ProductPage.GatePassword` | app/routes/_index.tsx:251 | the gate password is the metafield's non-empty value when there is one, and `''` otherwise |
| `ProductPage.Loader` | app/routes/_index.tsx:216-263 | missing domain or token fails with the credentials error before any request; otherwise a failed fetch gives the fetch error, a reply with `errors` the query error, and a missing product the 404 not-found error, each exactly in its case; otherwise the page data carries the product, the shop, the derived gate flag and password, and the credentials |
| `ProductPage.ScreenFor` | app/routes/_index.tsx:301-319 | while checking the spinner shows; afterwards the lock screen shows exactly when the gate is enabled and not unlocked, and the storefront otherwise |
| `ProductPage.Decremented` | app/routes/_index.tsx:531 | the decrement never goes below 1, and lowers any quantity of 2 or more by exactly 1 |
| `ProductPage.TotalQuantity` | app/routes/_index.tsx:420 | the total of the line quantities is at least each line's quantity |
| `ProductPage.TotalQuantityAppend` | app/routes/_index.tsx:420 | the total of two line lists joined is the sum of their totals |
| `ProductPage.TotalQuantityZero` | app/routes/_index.tsx:420 | the total is 0 exactly when every line has quantity 0 |
| `ProductPage.SumQuantities` | app/routes/_index.tsx:420 | the left-to-right `reduce` from a start value equals that value plus the total quantity |
| `ProductPage.CartItemsCount` | app/routes/_index.tsx:420 | the badge count is the total line quantity of the mirror, and 0 with no cart or no lines |
| `ProductPage.AddToCart` | app/routes/_index.tsx:321-360 | with a cart id, lines-add against that id; otherwise create-cart; the one line is always the selected variant and quantity; the mirror becomes the returned cart; only a created cart's id is stored under `cartId`; the drawer opens when the mutation returned (not when a created cart came back null); loading ends false; nothing else changes |
| `ProductPage.BuyNow` | app/routes/_index.tsx:362-386 | always create-cart with the one line; mirror and storage are untouched; a returned cart redirects to its checkout URL with the loading flag left set; on error only the loading flag is reset |
| `ProductPage.UpdateQuantity` | app/routes/_index.tsx:388-418 | without a cart nothing happens; a quantity of 0 or less issues only remove with `[lineId]`, a positive one only update with `{lineId, quantity}`; the mirror becomes the returned cart |
| `ProductPage.Index.constructor` | app/routes/_index.tsx:279-288 | the first render has the first variant, quantity 1, no cart, nothing loading, the gate locked and still being checked, so the spinner shows |
| `ProductPage.Index.CheckStoredUnlock` | app/routes/_index.tsx:291-295 | the unlock flag becomes whether storage holds `gateUnlocked=true`, checking ends, and the lock screen then shows exactly when the gate is enabled and that flag is absent |
| `ProductPage.Index.Unlock` | app/routes/_index.tsx:305 | `onUnlock`, reachable only from the rendered lock screen, sets the unlock flag and nothing else, and the storefront then shows |
| `ProductPage.Index.DecrementQuantity` | app/routes/_index.tsx:531 | the quantity becomes `Decremented` of the old one and stays at least 1 |
| `ProductPage.Index.IncrementQuantity` | app/routes/_index.tsx:538 | the quantity grows by one, nothing else changes |
| `ProductPage.Index.HandleAddToCart` | app/routes/_index.tsx:321-360 | the new state and the request issued are those of `AddToCart` |
| `ProductPage.Index.HandleBuyNow` | app/routes/_index.tsx:362-386 | the new state and the request issued are those of `BuyNow` |
| `ProductPage.Index.UpdateCartItemQuantity` | app/routes/_index.tsx:388-418 | the new state and the request issued, if any, are those of `UpdateQuantity` |
| `GateFlow.PasswordUnlockSurvivesReload` | app/components/GateLockScreen.tsx:74-77 | after a matching password, storage holds `gateUnlocked=true`, and a reloaded page that has read it shows the storefront whatever the gate setting |
| `GateFlow.CartHandlersKeepUnlock` | app/routes/_index.tsx:351 | no cart handler removes or changes a stored unlock (the only write is `cartId`) |
| `GateFlow.SignupThroughRelay` | app/components/GateLockScreen.tsx:37-52 | a valid signup answered by the relay itself is always acknowledged and clears the form, with any key or contacts-API outcome, and never unlocks or writes storage |
| `GateFlow.PasswordScenario` | app/components/GateLockScreen.tsx:64-81 | with the gate on and password `vip2024`: toggle, `wrong` is refused and stays locked, `vip2024` unlocks and persists both keys, and the page then shows the storefront |

## Left out

- The HTTP calls themselves (the Storefront GraphQL endpoint and the contacts API), the
  GraphQL documents and the JSON request bodies beyond the fields named above: each call
  is an outcome supplied as a parameter.
- The `statusDate` timestamps sent to the contacts API: they come from the clock.
- Logging to the console.
- Price display and instalment arithmetic (floating point) and the subtotal, which the page
  never computes: the cart's subtotal is carried as the API returned it.
- Rendering, the image gallery, variant selection, and opening and closing the cart
  drawer by hand; the cart drawer's quantity buttons are modelled only as the
  `newQuantity` they pass to `UpdateCartItemQuantity`.
- Concurrency: each async handler is one atomic step, so the window in which `isLoading`
  (or `isShopPayLoading`) is true, overlapping mutations and last-response-wins are not
  modelled.
- Aliasing of browser storage: the lock screen and the page each hold the storage map as a
  field; `GateFlow` connects them by passing the map from one to the other.
- The page after a buy-now redirect: the assignment to `window.location.href` is recorded
  as `location`, and what the browser does next is not modelled.
- `ProductPage.Index.constructor` requires a product with at least one variant: with none
  the page fails on its first render, which is not modelled.
- `app/root.tsx`, the policy pages, `hydrogen.config.js` and `env.d.ts` hold layout, static
  text and configuration with no decision logic.
