/** Whole flows through the components, with the sign-in form and the
    bookshelf sharing one provider. The bookshelf is mounted directly here;
    the application's router has no route that mounts it. */
module Scenarios {
  import opened Js
  import opened Api
  import opened AccessTokenContext
  import BookShelf
  import Login

  /** Signing in with a response that carries a token, then mounting a
      bookshelf on the same provider, whose load returns three empty
      shelves: the session is established, exactly one GET carrying that
      token goes out, and three empty shelves are rendered. */
  method SignInThenOpenShelf(username: string, password: string, t: string)
    returns (signedIn: bool, view: BookShelf.View)
    requires t != ""
    ensures signedIn
    ensures view == BookShelf.ShelvesView([[], [], []])
  {
    var session := new AccessTokenProvider();
    var ctx := Provided(session);
    var form := new Login.LoginComponent();
    form.SetUsername(username);
    form.SetPassword(password);
    form.HandleSubmit(ctx, Ok(Login.SignInData(Some(t))));
    signedIn := session.HasToken();
    var shelf := new BookShelf.BookShelfComponent();
    shelf.FetchBookshelfData(ctx, Ok(NoBooks));
    assert shelf.requests == [GetShelves(JsString(t))];
    view := BookShelf.Render(shelf.State());
  }

  /** A 401 from sign-in leaves the session empty, so the load of a
      bookshelf mounted on the same provider issues nothing and the view
      shows "User not authenticated". */
  method RejectedSignInThenOpenShelf(username: string, password: string, m: string)
    returns (signedIn: bool, view: BookShelf.View)
    ensures !signedIn
    ensures view == BookShelf.ErrorView(BookShelf.NotAuthenticated)
  {
    var session := new AccessTokenProvider();
    var ctx := Provided(session);
    var form := new Login.LoginComponent();
    form.SetUsername(username);
    form.SetPassword(password);
    form.HandleSubmit(ctx, Fail(HttpError(Some(401), m)));
    assert form.errorMessage == Login.InvalidCredentials;
    signedIn := session.HasToken();
    var shelf := new BookShelf.BookShelfComponent();
    shelf.FetchBookshelfData(ctx, Ok(NoBooks));
    assert shelf.requests == [];
    view := BookShelf.Render(shelf.State());
  }

  /** After logging out, a shelf change on a loaded shelf issues no PUT, the
      shelves stay as loaded, and the error view takes over. */
  method LogoutThenChangeShelf(t: string, loaded: ShelfBooks, bookId: string, newShelf: string)
    returns (kept: ShelfBooks, view: BookShelf.View)
    requires t != ""
    ensures kept == loaded
    ensures view == BookShelf.ErrorView(BookShelf.NotAuthenticated)
  {
    var session := new AccessTokenProvider();
    var ctx := Provided(session);
    session.Login(t);
    var shelf := new BookShelf.BookShelfComponent();
    shelf.FetchBookshelfData(ctx, Ok(loaded));
    session.Logout();
    ghost var before := shelf.requests;
    shelf.HandleShelfChange(ctx, bookId, newShelf, Ok(()), Ok(NoBooks));
    assert shelf.requests == before;
    kept := shelf.shelfBooks;
    view := BookShelf.Render(shelf.State());
  }
}
