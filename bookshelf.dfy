/** The bookshelf view's controller: the `shelfBooks` partition and the
    `error` string it keeps, the three handlers that consult `getToken()`
    before talking to the server, and the choice between rendering the
    error and rendering the shelves. */
module BookShelf {
  import opened Js
  import opened Api
  import opened AccessTokenContext

  const NotAuthenticated := "User not authenticated"
  const FetchFallback := "An error occurred"
  const UpdateFallback := "An error occurred while updating the shelf"
  const DeleteFallback := "An error occurred while deleting the book from the shelf"

  datatype ShelfState = ShelfState(shelfBooks: ShelfBooks, error: Option<string>)

  /** Three empty shelves and no error. */
  const InitialState := ShelfState(NoBooks, None)

  /** Every error the controller records is a non-empty message. */
  predicate Valid(s: ShelfState) {
    s.error.Some? ==> s.error.value != ""
  }

  /** The state after a handler, and the requests it issued, in order. */
  datatype Step = Step(state: ShelfState, sent: seq<Request>)

  /** `fetchBookshelfData`: without a token it throws "User not
      authenticated" into its own catch and issues nothing; with one it GETs
      the snapshot and either takes the server's partition as it is or
      records the failure's message. */
  function Fetch(s: ShelfState, token: JsValue, outcome: Outcome<ShelfBooks>): (r: Step)
    ensures r.sent == (if Truthy(token) then [GetShelves(token)] else [])
    ensures forall i :: 0 <= i < |r.sent| ==> RequestVerb(r.sent[i]) == GET
    ensures r.state.shelfBooks == (if Truthy(token) && outcome.Ok? then outcome.value else s.shelfBooks)
    ensures !Truthy(token) ==> r.state.error == Some(NotAuthenticated)
    ensures Truthy(token) && outcome.Ok? ==> r.state.error == s.error
    ensures Truthy(token) && outcome.Fail? ==>
      r.state.error == Some(Or(outcome.error.message, FetchFallback))
  {
    if !Truthy(token) then
      Step(s.(error := Some(Or(NotAuthenticated, FetchFallback))), [])
    else
      match outcome
      case Ok(books) => Step(s.(shelfBooks := books), [GetShelves(token)])
      case Fail(e) => Step(s.(error := Some(Or(e.message, FetchFallback))), [GetShelves(token)])
  }

  /** `handleShelfChange(bookId, newShelf)`: token-gated PUT of whatever
      `newShelf` the caller passes; on success the shelves are refreshed by
      a whole refetch (whose outcome is `refetch`), on failure the error is
      recorded and nothing is refetched. */
  function ShelfChange(s: ShelfState, token: JsValue, bookId: string, newShelf: string,
                       put: Outcome<()>, refetch: Outcome<ShelfBooks>): (r: Step)
    ensures !Truthy(token) ==>
      r.sent == [] && r.state == s.(error := Some(NotAuthenticated))
    ensures Truthy(token) ==>
      |r.sent| >= 1 && r.sent[0] == PutShelf(bookId, newShelf, token) &&
      Url(r.sent[0]) == "/api/bookshelf/" + bookId + "/" + newShelf
    ensures forall i :: 0 <= i < |r.sent| ==> RequestVerb(r.sent[i]) == (if i == 0 then PUT else GET)
    ensures Truthy(token) && put.Ok? ==>
      var f := Fetch(s, token, refetch);
      r.state == f.state && r.sent == [PutShelf(bookId, newShelf, token)] + f.sent
    ensures Truthy(token) && put.Fail? ==>
      r.sent == [PutShelf(bookId, newShelf, token)] &&
      r.state == s.(error := Some(Or(put.error.message, UpdateFallback)))
  {
    if !Truthy(token) then
      Step(s.(error := Some(NotAuthenticated)), [])
    else
      var request := PutShelf(bookId, newShelf, token);
      match put
      case Ok(_) =>
        var f := Fetch(s, token, refetch);
        Step(f.state, [request] + f.sent)
      case Fail(e) =>
        Step(s.(error := Some(Or(e.message, UpdateFallback))), [request])
  }

  /** `handleBookDeletion(bookId)`: the same shape as a shelf change, with a
      DELETE instead of a PUT. */
  function BookDeletion(s: ShelfState, token: JsValue, bookId: string,
                        del: Outcome<()>, refetch: Outcome<ShelfBooks>): (r: Step)
    ensures !Truthy(token) ==>
      r.sent == [] && r.state == s.(error := Some(NotAuthenticated))
    ensures Truthy(token) ==>
      |r.sent| >= 1 && r.sent[0] == DeleteFromShelf(bookId, token)
    ensures forall i :: 0 <= i < |r.sent| ==> RequestVerb(r.sent[i]) == (if i == 0 then DELETE else GET)
    ensures Truthy(token) && del.Ok? ==>
      var f := Fetch(s, token, refetch);
      r.state == f.state && r.sent == [DeleteFromShelf(bookId, token)] + f.sent
    ensures Truthy(token) && del.Fail? ==>
      r.sent == [DeleteFromShelf(bookId, token)] &&
      r.state == s.(error := Some(Or(del.error.message, DeleteFallback)))
  {
    if !Truthy(token) then
      Step(s.(error := Some(NotAuthenticated)), [])
    else
      var request := DeleteFromShelf(bookId, token);
      match del
      case Ok(_) =>
        var f := Fetch(s, token, refetch);
        Step(f.state, [request] + f.sent)
      case Fail(e) =>
        Step(s.(error := Some(Or(e.message, DeleteFallback))), [request])
  }

  /** The shelves a successful shelf change or deletion leaves behind do not
      depend on which book was named or which shelf it was sent to: no local
      move or removal is applied, the partition comes from the refetch. */
  lemma WritesApplyNoLocalMutation(s: ShelfState, token: JsValue, b1: string, b2: string,
                                   n1: string, n2: string, write: Outcome<()>, refetch: Outcome<ShelfBooks>)
    ensures ShelfChange(s, token, b1, n1, write, refetch).state.shelfBooks
         == ShelfChange(s, token, b2, n2, write, refetch).state.shelfBooks
         == BookDeletion(s, token, b1, write, refetch).state.shelfBooks
         == BookDeletion(s, token, b2, write, refetch).state.shelfBooks
    ensures ShelfChange(s, token, b1, n1, write, refetch).state.shelfBooks
         == (if Truthy(token) && write.Ok? && refetch.Ok? then refetch.value else s.shelfBooks)
  {
  }

  /** What the component renders: the error when one is set (truthy), and
      otherwise the three shelves in the order Want to Read, Currently
      Reading, Read. */
  datatype View = ErrorView(message: string) | ShelvesView(shelves: seq<seq<Book>>)

  function Render(s: ShelfState): (v: View)
    ensures v.ErrorView? <==> s.error.Some? && s.error.value != ""
    ensures v.ErrorView? ==> v.message == s.error.value
    ensures v.ShelvesView? ==>
      v.shelves == [s.shelfBooks.wantToRead, s.shelfBooks.currentlyReading, s.shelfBooks.read]
  {
    if s.error.Some? && Truthy(JsString(s.error.value)) then ErrorView(s.error.value)
    else ShelvesView([s.shelfBooks.wantToRead, s.shelfBooks.currentlyReading, s.shelfBooks.read])
  }

  /** One user-visible event: the mount-time load, a shelf change or a
      deletion, each with the token `getToken()` returned at that moment and
      the outcomes of the requests it may issue. */
  datatype Event =
    | Load(token: JsValue, fetched: Outcome<ShelfBooks>)
    | ChangeShelf(token: JsValue, bookId: string, newShelf: string, put: Outcome<()>, refetch: Outcome<ShelfBooks>)
    | DeleteBook(token: JsValue, bookId: string, del: Outcome<()>, refetch: Outcome<ShelfBooks>)

  function Apply(s: ShelfState, e: Event): Step {
    match e
    case Load(t, o) => Fetch(s, t, o)
    case ChangeShelf(t, b, n, p, f) => ShelfChange(s, t, b, n, p, f)
    case DeleteBook(t, b, d, f) => BookDeletion(s, t, b, d, f)
  }

  /** The handlers run one after another over `events`; the requests of all
      of them, in order. */
  function Run(s: ShelfState, events: seq<Event>): Step
    decreases |events|
  {
    if events == [] then Step(s, [])
    else
      var first := Apply(s, events[0]);
      var rest := Run(first.state, events[1..]);
      Step(rest.state, first.sent + rest.sent)
  }

  /** Every handler keeps the error a non-empty message. */
  lemma {:induction false} RunPreservesValid(s: ShelfState, events: seq<Event>)
    requires Valid(s)
    ensures Valid(Run(s, events).state)
    decreases |events|
  {
    if events != [] {
      RunPreservesValid(Apply(s, events[0]).state, events[1..]);
    }
  }

  /** Once an error is set no handler clears it, so from then on the error
      is what is rendered. */
  lemma {:induction false} ErrorIsSticky(s: ShelfState, events: seq<Event>)
    requires Valid(s) && s.error.Some?
    ensures Run(s, events).state.error.Some?
    ensures Render(Run(s, events).state).ErrorView?
    decreases |events|
  {
    if events != [] {
      ErrorIsSticky(Apply(s, events[0]).state, events[1..]);
    }
  }

  /** No request leaves without a truthy token. */
  lemma {:induction false} RunSendsOnlyAuthenticated(s: ShelfState, events: seq<Event>)
    ensures forall i :: 0 <= i < |Run(s, events).sent| ==> Authenticated(Run(s, events).sent[i])
    decreases |events|
  {
    if events != [] {
      var first := Apply(s, events[0]);
      RunSendsOnlyAuthenticated(first.state, events[1..]);
      assert forall i :: 0 <= i < |first.sent| ==> Authenticated(first.sent[i]);
    }
  }

  /** The snapshots the server delivered in one event and that the
      controller accepted: a successful GET made with a truthy token. */
  function Delivered(e: Event): seq<ShelfBooks> {
    match e
    case Load(t, o) => if Truthy(t) && o.Ok? then [o.value] else []
    case ChangeShelf(t, _, _, p, f) => if Truthy(t) && p.Ok? && f.Ok? then [f.value] else []
    case DeleteBook(t, _, d, f) => if Truthy(t) && d.Ok? && f.Ok? then [f.value] else []
  }

  function AllDelivered(events: seq<Event>): seq<ShelfBooks>
    decreases |events|
  {
    if events == [] then [] else Delivered(events[0]) + AllDelivered(events[1..])
  }

  /** The last snapshot of `snapshots`, or `current` when there is none. */
  function Latest(current: ShelfBooks, snapshots: seq<ShelfBooks>): ShelfBooks {
    if snapshots == [] then current else snapshots[|snapshots| - 1]
  }

  lemma LatestAppend(current: ShelfBooks, a: seq<ShelfBooks>, b: seq<ShelfBooks>)
    ensures Latest(current, a + b) == Latest(Latest(current, a), b)
  {
    if b != [] {
      assert (a + b)[|a + b| - 1] == b[|b| - 1];
    } else {
      assert a + b == a;
    }
  }

  /** The shelves on display are always the last snapshot the server
      delivered, replaced wholesale, or the starting partition when none has
      been delivered yet; from the initial state that is three empty shelves. */
  lemma {:induction false} ShelvesAreLatestSnapshot(s: ShelfState, events: seq<Event>)
    ensures Run(s, events).state.shelfBooks == Latest(s.shelfBooks, AllDelivered(events))
    decreases |events|
  {
    if events != [] {
      var e := events[0];
      var first := Apply(s, e);
      assert first.state.shelfBooks == Latest(s.shelfBooks, Delivered(e));
      ShelvesAreLatestSnapshot(first.state, events[1..]);
      LatestAppend(s.shelfBooks, Delivered(e), AllDelivered(events[1..]));
    }
  }

  /** The component: its two pieces of state, and a log of the requests it
      has issued. */
  class BookShelfComponent {
    var shelfBooks: ShelfBooks
    var error: Option<string>
    ghost var requests: seq<Request>

    function State(): ShelfState
      reads this
    {
      ShelfState(shelfBooks, error)
    }

    constructor ()
      ensures State() == InitialState && Valid(State())
      ensures shelfBooks.wantToRead == shelfBooks.currentlyReading == shelfBooks.read == []
      ensures error.None? && requests == []
    {
      shelfBooks := NoBooks;
      error := None;
      requests := [];
    }

    method FetchBookshelfData(ctx: TokenContext, outcome: Outcome<ShelfBooks>)
      modifies this
      ensures State() == Fetch(old(State()), ctx.GetToken(), outcome).state
      ensures requests == old(requests) + Fetch(old(State()), ctx.GetToken(), outcome).sent
    {
      var token := ctx.GetToken();
      if !Truthy(token) {
        // thrown as Error("User not authenticated") and caught below it
        error := Some(Or(NotAuthenticated, FetchFallback));
        return;
      }
      requests := requests + [GetShelves(token)];
      match outcome
      case Ok(books) =>
        shelfBooks := books;
      case Fail(e) =>
        error := Some(Or(e.message, FetchFallback));
    }

    method HandleShelfChange(ctx: TokenContext, bookId: string, newShelf: string,
                             put: Outcome<()>, refetch: Outcome<ShelfBooks>)
      modifies this
      ensures State() == ShelfChange(old(State()), ctx.GetToken(), bookId, newShelf, put, refetch).state
      ensures requests == old(requests) + ShelfChange(old(State()), ctx.GetToken(), bookId, newShelf, put, refetch).sent
    {
      var token := ctx.GetToken();
      if !Truthy(token) {
        error := Some(NotAuthenticated);
        return;
      }
      requests := requests + [PutShelf(bookId, newShelf, token)];
      match put
      case Ok(_) =>
        FetchBookshelfData(ctx, refetch);
      case Fail(e) =>
        error := Some(Or(e.message, UpdateFallback));
    }

    method HandleBookDeletion(ctx: TokenContext, bookId: string,
                              del: Outcome<()>, refetch: Outcome<ShelfBooks>)
      modifies this
      ensures State() == BookDeletion(old(State()), ctx.GetToken(), bookId, del, refetch).state
      ensures requests == old(requests) + BookDeletion(old(State()), ctx.GetToken(), bookId, del, refetch).sent
    {
      var token := ctx.GetToken();
      if !Truthy(token) {
        error := Some(NotAuthenticated);
        return;
      }
      requests := requests + [DeleteFromShelf(bookId, token)];
      match del
      case Ok(_) =>
        FetchBookshelfData(ctx, refetch);
      case Fail(e) =>
        error := Some(Or(e.message, DeleteFallback));
    }
  }
}
