# Farmlytic route-access policy

A Dafny model of the access-control shell of the Farmlytic web client. The model covers four pieces:

- the **route guard** (`ProtectedRoute`). Given the authentication state, the route's allow-list of roles and the current location, it shows a loading placeholder, redirects to `/login` carrying the location, redirects to the user's role home, or renders the page.
- the **home redirector** (`HomeRedirect`), mounted at `/`. It shows a loading placeholder or the public landing page (Index), or redirects to the role home.
- the **route table** of the router shell. It has ten declared paths, each public or guarded with an allow-list. A catch-all entry, declared last, leads to the not-found page.
- the **session-bleed check**. It reloads the page when the stored user and the current user are both present and their ids differ.

Everything is a pure function over datatypes (`wrappers.dfy`, `access.dfy`, `router.dfy`).
The authentication state is an input value: `isAuthenticated`, `isLoading`, and an optional user with `id` and `role`.
Roles and paths are strings, as in the application, so a role outside farmer/supplier/specialist can be represented.
`Router.Resolve` combines the pieces. It gives the view a visitor gets at a location, which lets the model state whole-policy facts:
- loading comes first;
- unauthenticated visitors go to `/login`;
- a role mismatch goes to a page the user may enter;
- no redirect is ever followed by a second one.

Four details of the code the model keeps:
- The role-mismatch redirect also requires a user object to be present (`user &&`). An authenticated state without a user renders every guarded page.
- A role is any string. A role other than the three known ones is sent to `/` by the guard. There the home redirector shows the landing page.
- The routes with no role restriction are guarded with the default empty allow-list. They are `Protected([])`, not a separate kind of guard.
- The session-bleed check compares user ids, not roles, although the comment above it (App.tsx:36) speaks of a role change. A role change under the same id never reloads; a change of id always does.

## Model

| member | source | states |
|---|---|---|
| `Access.Guard` | App.tsx:25-68 | Loading exactly while loading. Redirect to login exactly when loaded and unauthenticated, carrying the current location. Render exactly when loaded, authenticated and the allow-list admits the user (empty list, no user, or role listed). Any other redirect goes to the role's home (`HomeOf`), and only for a present user whose role is unlisted. |
| `Access.Home` | App.tsx:71-92 | Loading exactly while loading. Redirect exactly when loaded, authenticated and the user's role is one of the three known roles, and then to that role's landing page. Otherwise the landing page is shown. |
| `Access.HomeOf` | App.tsx:57-64 | The role-to-home mapping: farmer to `/farmer`, supplier to `/supplier`, specialist to `/specialist`, and any other role to `/`. The known roles are exactly the keys of `RoleHomes`. |
| `Access.ReloadOnIdentityChange` | App.tsx:37-42 | The reload follows the user's identity only. The same user, or the same id with another role, never reloads. A different id always reloads. Nothing stored, or nobody signed in, never reloads. |
| `Access.GuardAndHomeAgree` | App.tsx:55-91 | When the guard redirects a user of a known role, the home redirector sends that user to the same page. For any other role the guard goes to `/`, where the redirector shows the landing page. |
| `Access.LoadingTakesPrecedence` | App.tsx:46-76 | While loading, the guard and the home redirector both show loading, whatever the authentication flag, user and allow-list are. |
| `Access.EmptyAllowListRenders` | App.tsx:27-67 | With the default empty allow-list, every loaded and authenticated state renders. |
| `Router.MatchIndex` | App.tsx:102-143 | Returns the first table entry whose pattern matches the path: it matches and no earlier entry does. None only when no entry matches. |
| `Router.WellFormedMatch` | App.tsx:141-142 | In a table with distinct paths and the catch-all last, every path finds an entry. A declared path finds its own entry; any other path finds the catch-all. |
| `Router.AppRoutes` | App.tsx:103-142 | The application's table, in declaration order. Its declared paths are distinct, and its only catch-all entry is the last one. |
| `Router.Lookup` | App.tsx:103-142 | The entry chosen for a path is in the table. It is the path's own entry when declared; otherwise it is the catch-all leading to NotFound. |
| `Router.DeclaredPathsResolve` | App.tsx:103-140 | Each of the ten declared paths resolves to its listed page and guard. |
| `Router.LandingEntries` | App.tsx:103-140 | `/`, `/login`, `/farmer`, `/supplier` and `/specialist` resolve to their entries: the home redirector, the public login page, and pages guarded for their own role. |
| `Router.Resolve` | App.tsx:103-142 | An undeclared path shows NotFound. While loading, a guarded entry and the home entry show the loading placeholder. A guarded page is shown only to a loaded, authenticated user its allow-list admits. A redirect happens only when loaded. It goes to `/login` exactly when unauthenticated, and then carries the visited location. Otherwise it goes to the role home of a present user. |
| `Router.RoleHomeIsEnterable` | App.tsx:57-140 | The redirect target of each known role is a guarded entry whose allow-list holds that role. The target of any other role is the public root. |
| `Router.ArriveAtLogin` | App.tsx:104 | The login page shows in every authentication state. |
| `Router.ShownWhenAdmitted` | App.tsx:55-67 | A loaded, authenticated user admitted by a guarded page entry sees that page. |
| `Router.ArriveAtKnownHome` | App.tsx:126-140 | A loaded, authenticated user of a known role sees their own page at their role home. |
| `Router.ArriveAtRoot` | App.tsx:64-91 | A loaded, authenticated user of any other role sees the landing page at `/`. |
| `Router.NoRedirectChain` | App.tsx:46-142 | Any redirect, for every location and every state, lands on a page that is shown: never a second redirect, never loading. |
| `Router.GuardedNeedsLogin` | App.tsx:50-52 | An unauthenticated, loaded visitor at any guarded entry is redirected to `/login` with the visited location. |
| `Router.MismatchGoesHome` | App.tsx:55-64 | At a guarded entry with a non-empty allow-list, a user whose role is unlisted is redirected to the role home and does not get the page. |
| `Router.FarmerAtSupplierPage` | App.tsx:131-135 | A farmer at `/supplier` is redirected to `/farmer`. |
| `Router.VisitorAtCropsPage` | App.tsx:111-115 | A visitor at `/crops` is redirected to `/login`, and the redirect records `/crops`. |
| `Router.SpecialistAtWeatherPage` | App.tsx:116-120 | A specialist at `/weather` sees the Weather page. |
| `Router.SupplierAtRoot` | App.tsx:103 | A supplier at `/` is redirected to `/supplier`. |

## Left out

- The provider stack (query cache, theme, authentication provider, tooltips, toasts) and the JSX rendering around the router are UI composition over external libraries.
- How the authentication provider resolves its state is not part of this model, and neither are the page components. The state is an input of every decision.
- Reading the stored user from browser storage, parsing its JSON and reloading the window are browser I/O. The model keeps only the id comparison, over an already parsed optional id.
- Malformed stored JSON is not modelled, because the code would throw there. A stored user without an `id` field is not modelled either.
- An empty stored string is falsy, so the code never parses it. The model counts it as an absent stored id (`None`).
- A stored JSON `null` parses, but reading `.id` from it throws, as malformed JSON does. This case is not modelled.
- Effect re-run semantics (the check runs when the user changes) and the `replace` history flag of redirects are framework behaviour without logical content here.
- The router library's own matching rules are not modelled: trailing slashes, case, ranking, and the `state`/`key` fields of a location. Matching is exact path equality with the first entry winning and the catch-all last.
