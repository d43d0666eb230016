/** The search view's controller: the result list, the query, the error
    message, the loading flag and the last book added to a shelf; the
    query-driven search and the token-gated add-to-shelf handler. */
module Search {
  import opened Js
  import opened Api
  import opened AccessTokenContext

  const NotAuthenticated := "User not authenticated"
  const AddFailed := "Failed to add book to shelf."
  const SearchFailed := "Oh no! An unexpected error occurred."

  /** The notification record `{id, shelfName}`; `shelfName` is `None` where
      the lookup in the shelf-name table comes back `undefined`. */
  datatype AddedBook = AddedBook(id: string, shelfName: Option<string>)

  datatype SearchState = SearchState(
    books: seq<Book>,
    searchQuery: string,
    errorMessage: string,
    isLoading: bool,
    addedBook: Option<AddedBook>)

  const InitialState := SearchState([], "", "", false, None)

  /** The display labels for the three shelf keys. */
  function ShelfNames(): (m: map<string, string>)
    ensures m.Keys == {"wantToRead", "currentlyReading", "read"}
  {
    map["wantToRead" := "Want to Read", "currentlyReading" := "Currently Reading", "read" := "Read"]
  }

  /** `shelfNames[shelfKey]`: a label for exactly the three keys, `undefined`
      for anything else (the "Add to shelf..." option sends ""). */
  function ShelfName(key: string): (r: Option<string>)
    ensures r.Some? <==> key == "wantToRead" || key == "currentlyReading" || key == "read"
    ensures key == "wantToRead" ==> r == Some("Want to Read")
    ensures key == "currentlyReading" ==> r == Some("Currently Reading")
    ensures key == "read" ==> r == Some("Read")
  {
    if key in ShelfNames() then Some(ShelfNames()[key]) else None
  }

  datatype Step = Step(state: SearchState, sent: seq<Request>)

  /** The input's `onChange`: the query becomes exactly what was typed. */
  function SetQuery(s: SearchState, q: string): (r: SearchState)
    ensures r.searchQuery == q
    ensures r.books == s.books && r.errorMessage == s.errorMessage
    ensures r.isLoading == s.isLoading && r.addedBook == s.addedBook
  {
    s.(searchQuery := q)
  }

  /** `handleAddToShelf(bookId, shelfKey)`: without a token, the error
      message and nothing else; with one, a PUT of `shelfKey` whose success
      records the added book and clears the message, and whose failure sets
      the message and forgets the added book. */
  function AddToShelf(s: SearchState, token: JsValue, bookId: string, shelfKey: string,
                      put: Outcome<()>): (r: Step)
    ensures !Truthy(token) ==>
      r.sent == [] && r.state == s.(errorMessage := NotAuthenticated)
    ensures Truthy(token) ==> r.sent == [PutShelf(bookId, shelfKey, token)]
    ensures forall i :: 0 <= i < |r.sent| ==> RequestVerb(r.sent[i]) == PUT
    ensures Truthy(token) && put.Ok? ==>
      r.state == s.(addedBook := Some(AddedBook(bookId, ShelfName(shelfKey))), errorMessage := "")
    ensures Truthy(token) && put.Fail? ==>
      r.state == s.(errorMessage := AddFailed, addedBook := None)
    ensures r.state.books == s.books && r.state.isLoading == s.isLoading
  {
    if !Truthy(token) then
      Step(s.(errorMessage := NotAuthenticated), [])
    else
      var request := PutShelf(bookId, shelfKey, token);
      match put
      case Ok(_) =>
        Step(s.(addedBook := Some(AddedBook(bookId, ShelfName(shelfKey))), errorMessage := ""), [request])
      case Fail(_) =>
        Step(s.(errorMessage := AddFailed, addedBook := None), [request])
  }

  /** The synchronous prefix of `getBooks`, up to the awaited request: a
      query that is blank after trimming stops it; otherwise the loading
      flag is raised and the untrimmed query is sent, with whatever token
      `getToken()` returned, truthy or not. */
  function Pending(s: SearchState, token: JsValue): (r: Step)
    ensures Trim(s.searchQuery) == "" ==> r == Step(s, [])
    ensures Trim(s.searchQuery) != "" ==>
      r.state == s.(isLoading := true) && r.sent == [SearchBooks(s.searchQuery, token)]
  {
    if Trim(s.searchQuery) == "" then Step(s, [])
    else Step(s.(isLoading := true), [SearchBooks(s.searchQuery, token)])
  }

  /** The rest of `getBooks`, once the request has settled: the result list
      replaces `books`, or the generic message is shown and `books` kept; in
      both cases the loading flag is lowered. */
  function Settle(s: SearchState, outcome: Outcome<seq<Book>>): (r: SearchState)
    ensures !r.isLoading
    ensures outcome.Ok? ==> r.books == outcome.value && r.errorMessage == s.errorMessage
    ensures outcome.Fail? ==> r.books == s.books && r.errorMessage == SearchFailed
    ensures r.searchQuery == s.searchQuery && r.addedBook == s.addedBook
  {
    match outcome
    case Ok(found) => s.(books := found, isLoading := false)
    case Fail(_) => s.(errorMessage := SearchFailed, isLoading := false)
  }

  /** `getBooks` run to completion. */
  function FindBooks(s: SearchState, token: JsValue, outcome: Outcome<seq<Book>>): (r: Step)
    ensures Trim(s.searchQuery) == "" ==> r == Step(s, [])
    ensures Trim(s.searchQuery) != "" ==>
      r.sent == [SearchBooks(s.searchQuery, token)] && !r.state.isLoading &&
      r.state.books == (if outcome.Ok? then outcome.value else s.books) &&
      r.state.errorMessage == (if outcome.Ok? then s.errorMessage else SearchFailed) &&
      r.state.searchQuery == s.searchQuery && r.state.addedBook == s.addedBook
    ensures forall i :: 0 <= i < |r.sent| ==> RequestVerb(r.sent[i]) == GET
  {
    var p := Pending(s, token);
    if p.sent == [] then p else Step(Settle(p.state, outcome), p.sent)
  }

  /** For a query that is not blank, the flag is up while the search is in
      flight and down once it has settled, on success and on failure alike;
      a successful search shows the list, a failed one keeps the old list. */
  lemma LoadingOnlyWhileInFlight(s: SearchState, token: JsValue, outcome: Outcome<seq<Book>>)
    requires Trim(s.searchQuery) != ""
    ensures Pending(s, token).state.isLoading
    ensures !FindBooks(s, token, outcome).state.isLoading
    ensures FindBooks(s, token, outcome).state.books ==
      (if outcome.Ok? then outcome.value else s.books)
  {
  }

  /** The guard tests the trimmed query but the request carries the query
      as typed, whatever `getToken()` returned: a query with surrounding
      white space goes out with it. */
  lemma UntrimmedQueryWithoutToken(s: SearchState, token: JsValue, outcome: Outcome<seq<Book>>)
    requires Trim(s.searchQuery) != ""
    ensures FindBooks(s, token, outcome).sent == [SearchBooks(s.searchQuery, token)]
    ensures s.searchQuery != Trim(s.searchQuery) ==>
      FindBooks(s, token, outcome).sent[0].query != Trim(s.searchQuery)
  {
  }

  /** An instance: " dune " passes the guard and is sent, spaces included,
      from the default context's `null` token. */
  lemma UntrimmedQueryExample(s: SearchState)
    requires s.searchQuery == " dune "
    ensures FindBooks(s, JsNull, Ok([])).sent == [SearchBooks(" dune ", JsNull)]
  {
    assert !IsWhiteSpace(s.searchQuery[1]);
  }

  /** A search's URL carries the query verbatim, and without a provider its
      header reads `Bearer null`. */
  lemma UntrimmedRequestWithoutToken(q: string)
    ensures Url(SearchBooks(q, JsNull)) == "/api/book/search/" + q
    ensures Authorization(SearchBooks(q, JsNull)) == Some("Bearer null")
  {
    assert "Bearer " + ToJsString(JsNull) == "Bearer null";
  }

  /** One user-visible event of the view. */
  datatype Event =
    | Type(query: string)
    | Find(token: JsValue, found: Outcome<seq<Book>>)
    | Add(token: JsValue, bookId: string, shelfKey: string, put: Outcome<()>)

  function Apply(s: SearchState, e: Event): Step {
    match e
    case Type(q) => Step(SetQuery(s, q), [])
    case Find(t, o) => FindBooks(s, t, o)
    case Add(t, b, k, p) => AddToShelf(s, t, b, k, p)
  }

  function Run(s: SearchState, events: seq<Event>): Step
    decreases |events|
  {
    if events == [] then Step(s, [])
    else
      var first := Apply(s, events[0]);
      var rest := Run(first.state, events[1..]);
      Step(rest.state, first.sent + rest.sent)
  }

  /** Between handlers the view is never left loading. */
  lemma {:induction false} NeverLeftLoading(s: SearchState, events: seq<Event>)
    requires !s.isLoading
    ensures !Run(s, events).state.isLoading
    decreases |events|
  {
    if events != [] {
      NeverLeftLoading(Apply(s, events[0]).state, events[1..]);
    }
  }

  /** A request the view may issue: a search, with or without a token, or a
      shelf write that carries a truthy one. */
  predicate SearchOrAuthenticatedWrite(q: Request) {
    q.SearchBooks? || (q.PutShelf? && Authenticated(q))
  }

  lemma ApplySendsSearchOrAuthenticatedWrite(s: SearchState, e: Event)
    ensures forall i :: 0 <= i < |Apply(s, e).sent| ==> SearchOrAuthenticatedWrite(Apply(s, e).sent[i])
  {
  }

  /** Every shelf write the view issues carries a truthy token; searches
      are the only requests that may go out without one. */
  lemma {:induction false} WritesOnlyAuthenticated(s: SearchState, events: seq<Event>)
    ensures forall i :: 0 <= i < |Run(s, events).sent| ==> SearchOrAuthenticatedWrite(Run(s, events).sent[i])
    decreases |events|
  {
    if events != [] {
      var first := Apply(s, events[0]);
      ApplySendsSearchOrAuthenticatedWrite(s, events[0]);
      WritesOnlyAuthenticated(first.state, events[1..]);
    }
  }

  /** The component's state, and a log of the requests it has issued. */
  class SearchComponent {
    var books: seq<Book>
    var searchQuery: string
    var errorMessage: string
    var isLoading: bool
    var addedBook: Option<AddedBook>
    ghost var requests: seq<Request>

    function State(): SearchState
      reads this
    {
      SearchState(books, searchQuery, errorMessage, isLoading, addedBook)
    }

    constructor ()
      ensures State() == InitialState && requests == []
    {
      books, searchQuery, errorMessage, isLoading, addedBook := [], "", "", false, None;
      requests := [];
    }

    method SetSearchQuery(q: string)
      modifies this
      ensures State() == SetQuery(old(State()), q) && requests == old(requests)
    {
      searchQuery := q;
    }

    method HandleAddToShelf(ctx: TokenContext, bookId: string, shelfKey: string, put: Outcome<()>)
      modifies this
      ensures State() == AddToShelf(old(State()), ctx.GetToken(), bookId, shelfKey, put).state
      ensures requests == old(requests) + AddToShelf(old(State()), ctx.GetToken(), bookId, shelfKey, put).sent
    {
      var token := ctx.GetToken();
      var shelfNames := ShelfNames();
      if !Truthy(token) {
        errorMessage := NotAuthenticated;
        return;
      }
      requests := requests + [PutShelf(bookId, shelfKey, token)];
      match put
      case Ok(_) =>
        addedBook := Some(AddedBook(bookId, if shelfKey in shelfNames then Some(shelfNames[shelfKey]) else None));
        errorMessage := "";
      case Fail(_) =>
        errorMessage := AddFailed;
        addedBook := None;
    }

    method GetBooks(ctx: TokenContext, outcome: Outcome<seq<Book>>)
      modifies this
      ensures State() == FindBooks(old(State()), ctx.GetToken(), outcome).state
      ensures requests == old(requests) + FindBooks(old(State()), ctx.GetToken(), outcome).sent
    {
      if Trim(searchQuery) == "" {
        return;
      }
      ghost var pending := Pending(State(), ctx.GetToken());
      isLoading := true;
      requests := requests + [SearchBooks(searchQuery, ctx.GetToken())];
      assert State() == pending.state;
      match outcome {
        case Ok(found) =>
          books := found;
        case Fail(_) =>
          errorMessage := SearchFailed;
      }
      // the `finally` block
      isLoading := false;
      assert State() == Settle(pending.state, outcome);
    }
  }
}
