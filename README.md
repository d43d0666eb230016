# Reading-list client: session token and shelf controllers

This project models the logic of a reading-list web client in Dafny. The client is a React application. Users sign in, search a book catalog, and keep books on three shelves ("want to read", "currently reading", "read"). Almost all of the client is markup. The logic lives in four places:

- **The access-token store.** A provider holds one token string, which starts as `""`. `getToken` returns it and `hasToken` returns `!!token`. `login(t)` stores `t` without checking it, and `logout()` puts back `""`. A component used outside any provider gets the default context instead, whose functions all return `null`.
- **The bookshelf controller.** Its state is the `shelfBooks` partition and an `error` string. Its three handlers each read `getToken()` first. With no token they record "User not authenticated" and send nothing. A successful PUT or DELETE is followed by a refetch of the whole snapshot, which replaces `shelfBooks` as the server sent it. Nothing ever clears `error`, and a set error is rendered in place of the shelves.
- **The search controller.** Its state is `books`, `searchQuery`, `errorMessage`, `isLoading` and `addedBook`. `getBooks` does nothing for a query that is blank after `trim()`. Otherwise it raises `isLoading` and sends the untrimmed query, without checking the token. When the request settles it either replaces `books` or shows a generic message, and then lowers `isLoading`. Add-to-shelf is token-gated. It records `{id, shelfNames[key]}` on success and resets it on failure.
- **The sign-in submit handler.** It raises `isLoading` and posts the credentials. If the response carries a token, it calls `login(token)` and then navigates to `/bookshelf` with `replace`. Otherwise it shows "Invalid username or password" for a 401 response and a generic message for anything else, and lowers `isLoading`. The flag is lowered on the failure path only.

Each component is a Dafny class with the source's state fields. Its methods are the source's handlers, written as straight-line code. Every handler of the three controllers is proved against a pure function over a state datatype (`BookShelf.Fetch`, `Search.AddToShelf`, `Login.Submit`, ...); the token provider's methods and the sign-in form's input setters are specified directly on the fields they change. That function returns the new state and the requests issued, in order. The remote API is an input: each handler receives the outcome of every request it may issue (`Ok(value)` or `Fail(HttpError(status, message))`). A ghost log on each class records the requests or effects that would have left the client. The properties are proved about the functions: as their `ensures` for one handler, and as inductive lemmas over any sequence of events (`Run`). Module `Js` fixes JavaScript's truthiness, template-literal conversion, `||` on strings and `String.prototype.trim`. Module `Api` holds the remote API's records and requests. `Scenarios` connects the sign-in form and the bookshelf to one shared provider and mounts the bookshelf directly after sign-in. The router of the application does not do this (see "## Left out").

Some behaviour one might expect of such a client is absent from the code, and the model follows the code:

- The bookshelf never moves or removes a book locally. It takes whatever partition the server returns, and it does not enforce at most one shelf per book.
- A 401 response never clears the session.
- Writes to the same book are not queued.
- A blank search query leaves the earlier results on display; it does not produce an empty list.
- The search request does not require a token. Without a provider it is sent with the header `Bearer null`.

## Model

| member | source | states |
|---|---|---|
| `Js.Trim` | client/src/components/Search/Search.tsx:72 | `trim()` is empty exactly when every character is ECMAScript white space or a line terminator; otherwise both its ends are non-white-space |
| `Js.Truthy` | client/src/contexts/AccessTokenContext.tsx:27 | `null`, `false` and `""` are falsy; `true` and every other string are truthy; this is the test behind `!!token` here and behind every `!token` and `if (error)` guard |
| `Js.Or` | client/src/components/BookShelf/BookShelf.tsx:158 | the disjunction of two strings returns one of its operands; it is truthy iff either operand is, and it is `a` whenever `a` is truthy |
| `Js.ToJsString` | client/src/components/Search/Search.tsx:79 | interpolating a string gives the string itself; interpolating `null` gives `"null"` |
| `Api.RequestVerb` | client/src/components/BookShelf/BookShelf.tsx:151-200 | the shelf fetch and the search are GETs (also Search.tsx:76), the shelf write is a PUT (also Search.tsx:52), the removal a DELETE, and exactly sign-in is a POST (Login.tsx:24) |
| `Api.Url` | client/src/components/BookShelf/BookShelf.tsx:151-200 | every URL starts with `/api/`; the GET of the shelves is `/api/bookshelf` and sign-in is `/api/signin` (Login.tsx:25); the book id, the shelf (also Search.tsx:53) and the search query (Search.tsx:77) read back verbatim from their positions in the URL string handed to axios, unescaped (before URL parsing) |
| `Api.Authorization` | client/src/components/BookShelf/BookShelf.tsx:153 | sign-in carries no Authorization header and every other request carries one; that header is `Bearer ` followed by the template-literal conversion of the token the request carries, `null` included (Search.tsx:79) |
| `AccessTokenContext.AccessTokenProvider.constructor` | client/src/contexts/AccessTokenContext.tsx:24 | a fresh provider holds `""` and `hasToken()` is false |
| `AccessTokenContext.AccessTokenProvider.GetToken` | client/src/contexts/AccessTokenContext.tsx:26 | returns the stored string, and it is truthy exactly when `hasToken()` holds |
| `AccessTokenContext.AccessTokenProvider.HasToken` | client/src/contexts/AccessTokenContext.tsx:27 | `!!token` holds exactly when the stored token is non-empty |
| `AccessTokenContext.AccessTokenProvider.Login` | client/src/contexts/AccessTokenContext.tsx:28-30 | stores `t` unchanged; `hasToken()` afterwards iff `t` is non-empty |
| `AccessTokenContext.AccessTokenProvider.Logout` | client/src/contexts/AccessTokenContext.tsx:31-33 | the token becomes `""` and `hasToken()` is false |
| `AccessTokenContext.TokenContext.GetToken` | client/src/contexts/AccessTokenContext.tsx:13-20 | the default context answers `null`; under a provider the answer is exactly the provider's stored string; the answer is truthy iff a provider holds a non-empty token |
| `AccessTokenContext.TokenContext.HasToken` | client/src/contexts/AccessTokenContext.tsx:13-20 | the default context answers `null`; the answer is truthy exactly when `getToken()`'s is |
| `AccessTokenContext.TokenContext.Login` | client/src/contexts/AccessTokenContext.tsx:17 | through a provider it stores `t`; the default context's `login` changes nothing |
| `AccessTokenContext.TokenContext.Logout` | client/src/contexts/AccessTokenContext.tsx:18 | afterwards neither getter is truthy, whether or not there is a provider |
| `AccessTokenContext.LoginEmptyIsLogout` | client/src/contexts/AccessTokenContext.tsx:28-33 | `login("")` is accepted and leaves a provider in the same observable state as `logout()` |
| `AccessTokenContext.LogoutIdempotent` | client/src/contexts/AccessTokenContext.tsx:31-33 | a second `logout()` changes nothing |
| `AccessTokenContext.LoginThenGetToken` | client/src/contexts/AccessTokenContext.tsx:26-30 | after `login(t)`, every `getToken()` returns exactly `t` |
| `BookShelf.Fetch` | client/src/components/BookShelf/BookShelf.tsx:145-160 | no token: no GET, "User not authenticated", shelves unchanged; success: the shelves become the server's `books` wholesale and the error is untouched; failure: the failure's message (or "An error occurred") with the shelves unchanged; every request sent is a GET |
| `BookShelf.ShelfChange` | client/src/components/BookShelf/BookShelf.tsx:163-185 | no token: no PUT, error set, shelves unchanged; with a token the first request is the PUT of `newShelf` exactly as given, in the URL too; on success the state is that of a refetch; on failure the error is set, there is no refetch and the shelves are unchanged; the first request is a PUT and any later one a GET |
| `BookShelf.BookDeletion` | client/src/components/BookShelf/BookShelf.tsx:193-212 | the same gate, refetch-on-success and failure behaviour as a shelf change, with a DELETE: the first request is a DELETE and any later one a GET |
| `BookShelf.WritesApplyNoLocalMutation` | client/src/components/BookShelf/BookShelf.tsx:170-205 | the shelves after a PUT or DELETE do not depend on the book or shelf named; they are the refetched snapshot, or the old shelves when a request failed |
| `BookShelf.Render` | client/src/components/BookShelf/BookShelf.tsx:214-237 | a truthy error is rendered and the shelves are not; otherwise the three shelves are rendered in order |
| `BookShelf.RunPreservesValid` | client/src/components/BookShelf/BookShelf.tsx:139-211 | over any sequence of handlers, a recorded error is always a non-empty message |
| `BookShelf.ErrorIsSticky` | client/src/components/BookShelf/BookShelf.tsx:214 | once an error is set, no sequence of handlers clears it, and the error view is rendered from then on |
| `BookShelf.RunSendsOnlyAuthenticated` | client/src/components/BookShelf/BookShelf.tsx:147-149 | every request issued by any sequence of handlers carries a truthy token |
| `BookShelf.ShelvesAreLatestSnapshot` | client/src/components/BookShelf/BookShelf.tsx:156 | after any sequence of handlers the shelves are the last snapshot the server delivered (replaced wholesale), or the starting partition if none was delivered |
| `BookShelf.BookShelfComponent.constructor` | client/src/components/BookShelf/BookShelf.tsx:130-139 | three empty shelves, no error, nothing sent |
| `BookShelf.BookShelfComponent.FetchBookshelfData` | client/src/components/BookShelf/BookShelf.tsx:145-160 | the new state and the logged requests are those of `Fetch` |
| `BookShelf.BookShelfComponent.HandleShelfChange` | client/src/components/BookShelf/BookShelf.tsx:163-185 | the new state and the logged requests are those of `ShelfChange` |
| `BookShelf.BookShelfComponent.HandleBookDeletion` | client/src/components/BookShelf/BookShelf.tsx:193-212 | the new state and the logged requests are those of `BookDeletion` |
| `Search.ShelfNames` | client/src/components/Search/Search.tsx:42-46 | the table has exactly the three shelf keys |
| `Search.ShelfName` | client/src/components/Search/Search.tsx:61 | for the values the shelf select can send (`""` and the three keys, Search.tsx:132-135), `shelfNames[key]` is defined exactly for the three keys and gives each one its display label |
| `Search.SetQuery` | client/src/components/Search/Search.tsx:103 | the query becomes what was typed; nothing else changes |
| `Search.AddToShelf` | client/src/components/Search/Search.tsx:40-68 | no token: no PUT, "User not authenticated", `addedBook` unchanged; success: `addedBook` is `{bookId, shelfNames[shelfKey]}` and the message is cleared; failure: "Failed to add book to shelf." and `addedBook` reset to null; `books` and `isLoading` are never touched; any request sent is a PUT |
| `Search.Pending` | client/src/components/Search/Search.tsx:72-81 | a blank trimmed query: no request, state unchanged; otherwise `isLoading` is up and the untrimmed query is sent with whatever token there is |
| `Search.Settle` | client/src/components/Search/Search.tsx:82-89 | `isLoading` is down; success replaces `books` and keeps the message; failure shows the generic message and keeps `books` |
| `Search.FindBooks` | client/src/components/Search/Search.tsx:71-90 | a blank trimmed query leaves `books`, `isLoading` and `errorMessage` unchanged and sends nothing; otherwise exactly one search request with the untrimmed query, `isLoading` down at the end, `books` replaced on success and kept on failure, the generic message on failure only; any request sent is a GET |
| `Search.LoadingOnlyWhileInFlight` | client/src/components/Search/Search.tsx:73-89 | for a non-blank query `isLoading` is true while the request is in flight and false afterwards on both paths |
| `Search.UntrimmedQueryWithoutToken` | client/src/components/Search/Search.tsx:72-77 | for every query that is not blank after trimming and every token, truthy or not, exactly one search is sent, carrying the query as typed; a query with surrounding white space is handed to axios with it, not trimmed (before URL parsing) |
| `Search.UntrimmedQueryExample` | client/src/components/Search/Search.tsx:72-77 | an instance: `" dune "` passes the trimmed guard and is sent with its spaces and the default context's `null` token |
| `Search.UntrimmedRequestWithoutToken` | client/src/components/Search/Search.tsx:77-79 | for every query, the search URL is `/api/book/search/` followed by the query verbatim, and with a `null` token the header is `Bearer null` |
| `Search.NeverLeftLoading` | client/src/components/Search/Search.tsx:87-89 | between handlers the view is never left loading, after any sequence of events |
| `Search.WritesOnlyAuthenticated` | client/src/components/Search/Search.tsx:47-60 | in any sequence of events, every shelf write carries a truthy token; only searches may go out without one |
| `Search.SearchComponent.constructor` | client/src/components/Search/Search.tsx:28-35 | no books, empty query and message, not loading, no added book |
| `Search.SearchComponent.SetSearchQuery` | client/src/components/Search/Search.tsx:103 | the state is `SetQuery`'s and nothing is sent |
| `Search.SearchComponent.HandleAddToShelf` | client/src/components/Search/Search.tsx:40-68 | the new state and the logged requests are those of `AddToShelf` |
| `Search.SearchComponent.GetBooks` | client/src/components/Search/Search.tsx:71-90 | the new state and the logged requests are those of `FindBooks` |
| `Login.HasToken` | client/src/components/Login/Login.tsx:35 | the guard `!token` passes exactly when the response has a token field and it is a non-empty string |
| `Login.FromHttpError` | client/src/components/Login/Login.tsx:41 | a failed sign-in request is an HTTP client error that keeps the response's status; this assumes every failed request reaches the catch block as an axios error, so `axios.isAxiosError(error)` is taken to hold for it |
| `Login.ErrorMessageFor` | client/src/components/Login/Login.tsx:41-43 | "Invalid username or password" exactly for an HTTP client error with status 401; the generic message otherwise |
| `Login.Submit` | client/src/components/Login/Login.tsx:16-46 | the credentials are always posted first, and every request sent is a POST; a truthy token gives exactly post, `login(token)`, navigate to `/bookshelf` with replace, and leaves `isLoading` up; any other outcome (missing token included) gives no further effect, lowers `isLoading` and shows the 401 or generic message |
| `Login.Submitting` | client/src/components/Login/Login.tsx:19 | while the credentials are in flight `isLoading` is up, and nothing else has changed |
| `Login.LoadingLoweredOnlyOnFailure` | client/src/components/Login/Login.tsx:19-44 | `isLoading` is up during the request; afterwards it is still up exactly when sign-in succeeded |
| `Login.LoginOnlyWithToken` | client/src/components/Login/Login.tsx:34-37 | `login(t)` is called iff the response carries the truthy token `t`, and there is a navigation iff `login` was called |
| `Login.LoginComponent.constructor` | client/src/components/Login/Login.tsx:10-13 | empty credentials and message, not loading, no effects |
| `Login.LoginComponent.SetUsername` | client/src/components/Login/Login.tsx:63 | only the username changes |
| `Login.LoginComponent.SetPassword` | client/src/components/Login/Login.tsx:76 | only the password changes |
| `Login.LoginComponent.HandleSubmit` | client/src/components/Login/Login.tsx:16-46 | state and effects are those of `Submit`; on success the session holds the returned token and `hasToken()` is true; otherwise the session is untouched |
| `Scenarios.SignInThenOpenShelf` | client/src/components/Login/Login.tsx:34-37 | after a sign-in whose response carries a token, the session is established and a bookshelf mounted directly on the same provider and loaded with an empty snapshot renders three empty shelves |
| `Scenarios.RejectedSignInThenOpenShelf` | client/src/components/Login/Login.tsx:41-44 | a 401 leaves no session, so the bookshelf's load sends nothing and renders "User not authenticated" |
| `Scenarios.LogoutThenChangeShelf` | client/src/components/BookShelf/BookShelf.tsx:164-168 | after logout a shelf change sends no PUT, keeps the loaded shelves and renders the error |

## Left out

- Rendering: the markup, placeholder images and fallback titles, the mapping over book lists, and the added-book notification. The bookshelf's error-or-shelves decision is kept (`BookShelf.Render`).
- The HTTP transport: axios, headers other than `Authorization`, request bodies other than the sign-in credentials, and `console.error`. Each request is replaced by an outcome parameter and an entry in a ghost log.
- Api.Url: it is the template-literal string handed to axios, before URL parsing. The browser's parser drops trailing spaces and percent-encodes inner ones, so `" dune "` would go out as `/api/book/search/%20dune`; that rewriting is not modelled, and "verbatim" in the rows on `Url` and the search query refers to the string handed to axios.
- Hook scheduling: when React runs `useEffect` and `useCallback` (on mount, and again whenever `getToken` or `searchQuery` changes), and async interleaving. Every handler is one sequential step. The refetches after a shelf change or deletion are not awaited in the source; the model runs them right after the write succeeds, with the token the handler read.
- Unmounting while a request is in flight. Also left out: the sign-in form's `e.preventDefault()`, and the component leaving the screen after navigation.
- Routing and the access gate: `ProtectedRoute` (the file `client/src/components/Routing/ProtectedRoute`) is not part of this model. Router, App and Content are wiring only.
- The home page, the book-detail page and the header. The first two make fetches with no token logic. The header's logout button is `AccessTokenProvider.Logout`.
- Book records keep only `id`, `title` and `authors`; the other fields are for display only.
- A successful response always carries its `books` field: the shelf fetch yields a partition (BookShelf.tsx:156), and the search yields a list (Search.tsx:82-83). A response without `books` (`undefined`) is not modelled, so the view's `books &&` check (Search.tsx:112) is not either.
- Failure messages: an error that is not an `Error` object and has no `message` is not modelled. A failure's message is a string that may be empty, and then the fallback text is used.
- The sign-in response's token is absent or a string. A non-string token value (a number, say) is not modelled.
- The code applies no local moves or removals to the shelves, never clears the session on a 401, does not queue writes per book and does not enforce one shelf per book on the client, so the model has none of these.
- Scenarios: they mount the bookshelf directly after sign-in. The router shown (client/src/components/Routing/Router.tsx:11-16) has no `/bookshelf` or `/search` route, and no routing file imports the `BookShelf` or `Search` component (the header only links to those paths), so in the application `navigate("/bookshelf")` lands on the catch-all `*` route, which renders the not-found page behind `ProtectedRoute`.
- Search.ShelfName: only own keys of the table are modelled. In JavaScript, an inherited `Object.prototype` key such as `"toString"` or `"constructor"` also resolves to a value, where the model gives `None`. The shelf select only sends `""` and the three keys.
