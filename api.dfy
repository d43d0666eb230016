/** The remote API as the client sees it: the book and shelf records it
    receives, the outcome of a request, and the requests it can issue. The
    transport is not modelled; every handler is handed the outcome of the
    request it issues, and logs the request it would have sent. */
module Api {
  import opened Js

  datatype Option<T> = None | Some(value: T)

  /** A catalog book. The client only displays its descriptive fields, so
      the model keeps the identifier and the two fields shown on a shelf. */
  datatype Book = Book(id: string, title: string, authors: seq<string>)

  /** The three-way partition returned by `GET /api/bookshelf` in `books`. */
  datatype ShelfBooks = ShelfBooks(
    wantToRead: seq<Book>,
    currentlyReading: seq<Book>,
    read: seq<Book>)

  const NoBooks := ShelfBooks([], [], [])

  /** What a failed request throws. `status` is the HTTP status of the
      response when the failure is an HTTP client error carrying one, and
      `None` for a transport failure or any other thrown error. */
  datatype HttpError = HttpError(status: Option<int>, message: string)

  /** The outcome of one request, supplied by the caller of a handler. */
  datatype Outcome<T> = Ok(value: T) | Fail(error: HttpError)

  datatype Verb = GET | PUT | DELETE | POST

  /** The requests the client issues. `token` is the value returned by
      `getToken()` that the request carries in its Authorization header. */
  datatype Request =
    | GetShelves(token: JsValue)
    | PutShelf(bookId: string, shelf: string, token: JsValue)
    | DeleteFromShelf(bookId: string, token: JsValue)
    | SearchBooks(query: string, token: JsValue)
    | SignIn(username: string, password: string)

  /** The HTTP method of each request: reads are GETs, the shelf write a
      PUT, the removal a DELETE, and only sign-in posts. */
  function RequestVerb(r: Request): (v: Verb)
    ensures v == GET <==> r.GetShelves? || r.SearchBooks?
    ensures v == PUT <==> r.PutShelf?
    ensures v == DELETE <==> r.DeleteFromShelf?
    ensures v == POST <==> r.SignIn?
  {
    match r
    case GetShelves(_) => GET
    case PutShelf(_, _, _) => PUT
    case DeleteFromShelf(_, _) => DELETE
    case SearchBooks(_, _) => GET
    case SignIn(_, _) => POST
  }

  /** The URL of a request; path segments are interpolated without escaping,
      so each request's parameters read back verbatim from its URL. */
  function Url(r: Request): (u: string)
    ensures |u| >= 5 && u[..5] == "/api/"
    ensures r.GetShelves? ==> u == "/api/bookshelf"
    ensures r.PutShelf? ==>
      |u| == 16 + |r.bookId| + |r.shelf| && u[..15] == "/api/bookshelf/" &&
      u[15..15 + |r.bookId|] == r.bookId && u[15 + |r.bookId|] == '/' && u[16 + |r.bookId|..] == r.shelf
    ensures r.DeleteFromShelf? ==> |u| >= 15 && u[..15] == "/api/bookshelf/" && u[15..] == r.bookId
    ensures r.SearchBooks? ==> |u| >= 17 && u[..17] == "/api/book/search/" && u[17..] == r.query
    ensures r.SignIn? ==> u == "/api/signin"
  {
    match r
    case GetShelves(_) => "/api/bookshelf"
    case PutShelf(b, s, _) => "/api/bookshelf/" + b + "/" + s
    case DeleteFromShelf(b, _) => "/api/bookshelf/" + b
    case SearchBooks(q, _) => "/api/book/search/" + q
    case SignIn(_, _) => "/api/signin"
  }

  /** The Authorization header: `Bearer ${token}` on every request except
      sign-in, which sends none. */
  function Authorization(r: Request): (a: Option<string>)
    ensures a.None? <==> r.SignIn?
    ensures a.Some? ==>
      |a.value| >= 7 && a.value[..7] == "Bearer " && a.value[7..] == ToJsString(r.token)
  {
    if r.SignIn? then None else Some("Bearer " + ToJsString(r.token))
  }

  /** A request that carries a truthy token, i.e. one sent by a signed-in user. */
  predicate Authenticated(r: Request) {
    !r.SignIn? && Truthy(r.token)
  }
}
