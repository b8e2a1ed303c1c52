# Storefront session, routing and catalog model

A Dafny model of the logic inside a small single-page storefront and admin
console. The model has four parts:

- **Catalog filter** (`Catalog`, `Text`). The product store holds a product
  list, a search term and a selected category. `filteredProducts` keeps the
  products whose name or description includes the search term, ignoring case,
  and whose category equals the selected one. An empty category lets every
  product through. The filter is modelled as `Array.prototype.filter`
  (`Catalog.Select`) applied to the store's callback (`Catalog.MatchesFilter`).
  The store itself is the class `Catalog.ProductStore`.
- **Session store** (`Auth`). The class `Auth.AuthStore` has the fields `user`,
  `loading` and `error`. Its five actions update them in the same order as the
  source's successive `set` calls. Every backend call is replaced by its reply,
  a `Reply<T>` parameter:
  - `Resolved(data, error)` is a promise that resolves with a `{ data, error }` pair.
  - `Rejected(thrown)` is a promise that rejects.

  The two must be kept apart because some actions check the returned `error`
  field and some do not. When `SignIn`, `SignUp` or `SignOut` ends in its
  catch block it returns `Threw(e)`, the error it rethrows. `Initialize`
  swallows the error it catches and returns nothing. `SignUp` also returns
  the profile row it asked the backend to insert, so the one authorization
  rule (only a signed-in admin may create an admin account) is stated about
  that write.
- **Route guard** (`App`). `App.Route` maps `loading`, the signed-in user and
  the requested path to the spinner, a page (inside the sidebar layout or not)
  or a redirect. `App.Settle` follows redirects. `App.Mount` is the shell's
  first two renders around the `initialize` effect.
- **Sidebar** (`Layout`). `Layout.MenuItems` picks the admin or the shopper
  menu. `Layout.HandleSignOut` signs out first and navigates to `/login` only
  after that.

Behaviour of the code that the model keeps:
- A role is a string, and the code only ever compares it with `'admin'`
  (src/App.tsx:32, src/components/Layout.tsx:15, src/store/authStore.ts:75).
  The model keeps the role a string, and every role other than `"admin"` is
  treated as a shopper.
- Sign-up shows the caught error's own message, `error.message || 'Failed to
  create account'` (src/store/authStore.ts:112): the fallback is used only when
  that message is missing or empty.
- `signOut`, the current-user and admin-role queries of `signUp`, and the
  session query of `initialize` do not check the returned `error` field. Only
  a rejected call takes their error path. For example, a sign-out whose reply
  carries an error still clears the user.
- When the sign-in or sign-up call returns neither an account nor an error,
  `loading` stays `true`. The same happens when the profile insert returns no
  row. The guard then shows the spinner on every path (`App.Route`, first
  postcondition).
- A successful sign-up replaces the store's `user` with the new account's
  profile. This also happens when an admin creates another admin.

## Model

| member | source | states |
|---|---|---|
| `Text.LowerChar` | src/store/productStore.ts:59-60 | lower-casing never yields an upper-case letter; it moves 'A'..'Z' to 'a'..'z' and fixes every other character (ASCII `toLowerCase`) |
| `Text.LowerIdempotent` | src/store/productStore.ts:59-60 | lower-casing an already lower-cased term changes nothing |
| `Text.Lower` | src/store/productStore.ts:59-60 | defines `toLowerCase` on ASCII: the same length, every 'A'..'Z' moved up by 32 to its partner in 'a'..'z', no upper-case letter left, every other character kept |
| `Text.Contains` | src/store/productStore.ts:59-60 | defines `includes`: the needle is a prefix of the haystack or of one of its suffixes; an included needle is never longer than the haystack, and the empty needle is always included |
| `Text.ContainsIffOccurs` | src/store/productStore.ts:59-60 | the recursive `includes` search holds iff the needle occurs at some position of the haystack |
| `Text.ContainsEmpty` | src/store/productStore.ts:52-60 | every string includes the empty search term |
| `Catalog.MatchesSearch` | src/store/productStore.ts:59-60 | defines the search test: the lower-cased name or the lower-cased description includes the lower-cased term; the empty term matches every product |
| `Catalog.MatchesCategory` | src/store/productStore.ts:61 | defines the category test of line 61 (an empty category, or exact equality): the empty category matches every product, any other category only products with exactly that category |
| `Catalog.Select` | src/store/productStore.ts:58-63 | `filter` never lengthens the list, adds no element that was not there (multiset inclusion) and keeps only elements the callback accepts |
| `Catalog.Filter` | src/store/productStore.ts:56-63 | the filtered list is no longer than the products and holds only products of the list that match the term and the category |
| `Catalog.SelectKeepsPositions` | src/store/productStore.ts:58-63 | the result of `filter` is the subsequence of exactly the accepted positions, in increasing order |
| `Catalog.SelectMembership` | src/store/productStore.ts:58-63 | an element is in the result of `filter` iff it is in the input and the callback accepts it |
| `Catalog.FilterKeepsMatchingPositions` | src/store/productStore.ts:57-63 | the filtered products are the products at exactly the matching positions, in their original order |
| `Catalog.FilterMembership` | src/store/productStore.ts:59-62 | a product is in the result iff it is in the list, its lower-cased name or description includes the lower-cased term, and the category is empty or equal |
| `Catalog.EmptyFiltersKeepAll` | src/store/productStore.ts:52-61 | with the initial empty term and empty category every product is returned, in order |
| `Catalog.SearchIgnoresCase` | src/store/productStore.ts:59-60 | two search terms that lower-case alike give the same result |
| `Catalog.LowerTermSameResult` | src/store/productStore.ts:59-60 | searching for a term or for its lower-cased form gives the same result |
| `Catalog.CategoryIsExact` | src/store/productStore.ts:61 | with a non-empty category every returned product has exactly that category, letter case included |
| `Catalog.MockProducts` | src/store/productStore.ts:15-46 | the store starts with three mock products, each stamped with its own clock reading |
| `Catalog.ProductStore.constructor` | src/store/productStore.ts:48-53 | the initial store: mock products, not loading, no error, empty term and category, so every product is listed |
| `Catalog.ProductStore.SetSearchTerm` | src/store/productStore.ts:54 | sets the search term and leaves the products, the category, `loading` and `error` unchanged |
| `Catalog.ProductStore.SetCategory` | src/store/productStore.ts:55 | sets the category and leaves the products, the search term, `loading` and `error` unchanged |
| `Catalog.ProductStore.FilteredProducts` | src/store/productStore.ts:56-64 | reads the store without changing it; the result is no longer than the products and holds exactly the listed products that match the current term and category |
| `Auth.IsAdmin` | src/App.tsx:32 | defines `user?.role === 'admin'`: true only for a signed-in user whose role is exactly "admin" |
| `Auth.CallerIsAdmin` | src/store/authStore.ts:65-78 | defines when both admin-creation checks pass: the current-user query found an account and the role query returned "admin" |
| `Auth.Raised` | src/store/authStore.ts:30 | defines what `await` followed by `if (error) throw error` raises: the rejection of a rejected call, the returned error field of a resolved one |
| `Auth.Succeeds` | src/store/authStore.ts:30 | defines a call that raises nothing: it resolved with no error field |
| `Auth.SignUpMessage` | src/store/authStore.ts:112 | the message shown after a failed sign-up is the error's own message when it has one and "Failed to create account" when it is missing or empty |
| `Auth.NewAccountRole` | src/store/authStore.ts:95 | the role written for a new account is "admin" iff an admin account was requested |
| `Auth.AuthStore.constructor` | src/store/authStore.ts:17-19 | the initial state is no user, loading, no error |
| `Auth.AuthStore.ClearError` | src/store/authStore.ts:20 | clears the error and leaves the user and `loading` unchanged |
| `Auth.AuthStore.SignIn` | src/store/authStore.ts:21-59 | a failure of the sign-in call or of the profile query, or a missing profile, shows "Invalid email or password", ends loading, keeps the user and rethrows; a profile becomes the user with loading over and no error; with neither account nor error, loading stays true and the user is kept |
| `Auth.AuthStore.SignUp` | src/store/authStore.ts:60-117 | with an admin account requested, no signed-in caller raises "Authentication required" and a caller without the admin role raises "Unauthorized to create admin accounts", both before any write; an admin row is written only after both checks pass; the row carries the new account's id, the email and the requested role; a failure shows the error's message (or "Failed to create account"), ends loading, keeps the user and rethrows; a returned profile becomes the user |
| `Auth.AuthStore.SignOut` | src/store/authStore.ts:118-131 | a call that does not reject clears the user and ends loading with no error; a rejected call keeps the user, shows "Failed to sign out", ends loading and rethrows |
| `Auth.AuthStore.Initialize` | src/store/authStore.ts:132-163 | always ends loading; a rejected session query or a failed profile query shows "Failed to initialize session"; without a session the user and the error are kept; a profile found becomes the user |
| `App.Route` | src/App.tsx:17-52 | the spinner is shown iff loading; `/login` shows Login with nobody signed in and redirects to `/` otherwise; `/admin/create` shows CreateAdmin in the layout iff the user is an admin, else redirects to `/`; any other path redirects to `/login` with nobody signed in and otherwise shows the admin or the user dashboard by role |
| `App.AdminPagesNeedAdmin` | src/App.tsx:29-46 | CreateAdmin and the admin dashboard are rendered only for an admin, and an admin never gets the user dashboard |
| `App.LayoutNeedsUser` | src/App.tsx:28-51 | the layout is rendered only for a signed-in user, and Login exactly on `/login` with nobody signed in |
| `App.RedirectTargets` | src/App.tsx:28-51 | every redirect goes to `/` or `/login` |
| `App.SettlesWithinTwoRedirects` | src/App.tsx:28-51 | once loading is over, following redirects reaches a rendered page within two steps; with nobody signed in that page is Login, otherwise a page in the layout |
| `App.RestoredUser` | src/store/authStore.ts:132-163 | a fresh store holds a user after `initialize` iff the session query resolved with a session and the profile query resolved with a profile and no error; that user is the profile |
| `App.Mount` | src/App.tsx:10-56 | the first render on a fresh store is the spinner and the render after `initialize` never is; the second render is the guard applied to the restored user (so a rejected session query or a failed profile query leaves only Login or a redirect, and a restored shopper reaches the user dashboard); without a session only Login or a redirect is shown; a restored admin session reaches the admin pages |
| `Layout.MenuItems` | src/components/Layout.tsx:15-28 | an admin gets the five paths `/`, `/products`, `/users`, `/admin/create`, `/settings` in that order; anyone else, signed in or not, gets `/`, `/shop`, `/orders`, `/profile`; both start with Dashboard at `/`; paths are distinct; `/admin/create` is offered iff the user is an admin |
| `Layout.MenuAgreesWithRoutes` | src/components/Layout.tsx:15-28 | for a signed-in user every menu entry leads to a rendered page, and the `/admin/create` entry leads to CreateAdmin, as the guard at src/App.tsx:32 decides |
| `Layout.HandleSignOut` | src/components/Layout.tsx:10-13 | sign-out runs first; only when it completes is `/login` navigated to, with the user cleared, loading over and no error, and the guard then shows Login; a rejected sign-out navigates nowhere, keeps the user, shows "Failed to sign out", ends loading and rethrows |

## Left out

- The backend client (src/lib/supabase.ts) and every network call are not modelled. Their replies are parameters of the store's actions, and a reply is consulted only where the code makes that call. The model does not check that a profile reply belongs to the account the query asked for: the store trusts the row as given, as the code does.
- The email and password arguments of `signIn`, and the password of `signUp`, go only to the backend. They are not parameters. The email of `signUp` is a parameter, because it is written into the profile row.
- Concurrent store actions ("last write wins") and the framework's effect scheduling are not modelled. `App.Mount` models one run of the `initialize` effect after the first render.
- Rendering, styling and icons are not modelled. A menu item keeps its label (the field `caption`, because `label` is a reserved word in Dafny) and path but not its icon.
- The dashboards, their mock data and chart (src/pages/admin/Dashboard.tsx, src/pages/user/Dashboard.tsx) and the product card (src/components/ProductCard.tsx) are presentation and are not modelled.
- src/pages/admin/CreateAdmin.tsx is not modelled. Its submit calls `signUp(email, password, true)`, which is `Auth.AuthStore.SignUp` with `isAdmin` true. Its navigation afterwards is not modelled.
- `Text.LowerChar`: lower-casing covers ASCII only, not the full Unicode `toLowerCase`.
- `App.Route`: paths are compared exactly. The router's general matching (letter case, trailing slashes, ranking of other routes) is not modelled, apart from the two fixed routes taking precedence over the catch-all route.
- Console logging is left out. The three clock readings for `created_at`, one per mock product, are the parameters `t1`, `t2` and `t3`. Prices are kept as `real` values and nothing computes with them.
- The product store's `loading` and `error` fields are never changed by the code. The model keeps them only as data.
