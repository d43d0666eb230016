/** The sign-in form's submit handler: it raises the loading flag, posts
    the credentials, and then either stores the returned token and moves to
    the bookshelf, or shows one of two error messages and lowers the flag. */
module Login {
  import opened Js
  import opened Api
  import opened AccessTokenContext

  const InvalidCredentials := "Invalid username or password"
  const UnexpectedError := "We are sorry, unexpected error occurred."
  /** The message of the error thrown for a response without a token. */
  const MissingToken := "Missing JWT token"
  const AfterSignIn := "/bookshelf"

  /** The body of a sign-in response; `token` is `None` when it is absent. */
  datatype SignInData = SignInData(token: Option<string>)

  /** What the catch block receives: an HTTP client error, with the status
      of its response when it has one, or any other thrown error. */
  datatype Caught = ClientError(status: Option<int>) | OtherError(message: string)

  datatype LoginState = LoginState(username: string, password: string, isLoading: bool, errorMessage: string)

  const InitialState := LoginState("", "", false, "")

  /** What the handler does to the outside world, in order. */
  datatype Effect =
    | Send(request: Request)
    | CallLogin(token: string)
    | Navigate(path: string, replace: bool)

  datatype Step = Step(state: LoginState, effects: seq<Effect>)

  /** `!token` on the response's token field. */
  predicate HasToken(d: SignInData)
    ensures HasToken(d) <==> d.token.Some? && d.token.value != ""
  {
    d.token.Some? && Truthy(JsString(d.token.value))
  }

  /** The message the catch block shows: the credentials message for a 401
      response, the generic one for everything else. */
  function ErrorMessageFor(c: Caught): (m: string)
    ensures m == InvalidCredentials <==> c.ClientError? && c.status == Some(401)
    ensures m == InvalidCredentials || m == UnexpectedError
  {
    if c.ClientError? && c.status == Some(401) then InvalidCredentials else UnexpectedError
  }

  /** The error a failed request throws, as the catch block sees it: every
      failure is taken to be an HTTP client error, keeping the response's
      status when there is one. */
  function FromHttpError(e: HttpError): (c: Caught)
    ensures c.ClientError? && c.status == e.status
  {
    ClientError(e.status)
  }

  /** The synchronous prefix of `handleSubmit`, up to the awaited POST: the
      loading flag is raised, which disables the submit button. */
  function Submitting(s: LoginState): (r: LoginState)
    ensures r.isLoading
    ensures r.username == s.username && r.password == s.password && r.errorMessage == s.errorMessage
  {
    s.(isLoading := true)
  }

  /** `handleSubmit`. */
  function Submit(s: LoginState, outcome: Outcome<SignInData>): (r: Step)
    ensures |r.effects| >= 1 && r.effects[0] == Send(SignIn(s.username, s.password))
    ensures forall i :: 0 <= i < |r.effects| && r.effects[i].Send? ==> RequestVerb(r.effects[i].request) == POST
    ensures r.state.username == s.username && r.state.password == s.password
    ensures outcome.Ok? && HasToken(outcome.value) ==>
      r.effects == [Send(SignIn(s.username, s.password)),
                    CallLogin(outcome.value.token.value),
                    Navigate(AfterSignIn, true)] &&
      r.state == s.(isLoading := true)
    ensures !(outcome.Ok? && HasToken(outcome.value)) ==>
      r.effects == [Send(SignIn(s.username, s.password))] &&
      !r.state.isLoading &&
      r.state.errorMessage ==
        (if outcome.Fail? && outcome.error.status == Some(401) then InvalidCredentials else UnexpectedError)
  {
    var loading := Submitting(s);
    var sent := [Send(SignIn(s.username, s.password))];
    var caught: Option<Caught> :=
      match outcome
      case Ok(data) => if HasToken(data) then None else Some(OtherError(MissingToken))
      case Fail(e) => Some(FromHttpError(e));
    match caught
    case None => Step(loading, sent + [CallLogin(outcome.value.token.value), Navigate(AfterSignIn, true)])
    case Some(c) => Step(loading.(errorMessage := ErrorMessageFor(c), isLoading := false), sent)
  }

  /** The flag is up while the credentials are in flight, and afterwards it
      is down exactly when sign-in did not succeed: only the failure path
      lowers it. */
  lemma LoadingLoweredOnlyOnFailure(s: LoginState, outcome: Outcome<SignInData>)
    ensures Submitting(s).isLoading
    ensures Submit(s, outcome).state.isLoading <==> outcome.Ok? && HasToken(outcome.value)
  {
  }

  /** `login` is called exactly when the response carries a truthy token,
      with that token, and only then is there a navigation, which comes
      after it. */
  lemma LoginOnlyWithToken(s: LoginState, outcome: Outcome<SignInData>, t: string)
    ensures CallLogin(t) in Submit(s, outcome).effects <==>
      outcome.Ok? && HasToken(outcome.value) && t == outcome.value.token.value
    ensures (exists i :: 0 <= i < |Submit(s, outcome).effects| && Submit(s, outcome).effects[i].Navigate?) <==>
      outcome.Ok? && HasToken(outcome.value)
  {
    if outcome.Ok? && HasToken(outcome.value) {
      assert Submit(s, outcome).effects[2].Navigate?;
    }
  }

  /** The component's state, and a log of what it did outside itself. */
  class LoginComponent {
    var username: string
    var password: string
    var isLoading: bool
    var errorMessage: string
    ghost var effects: seq<Effect>

    function State(): LoginState
      reads this
    {
      LoginState(username, password, isLoading, errorMessage)
    }

    constructor ()
      ensures State() == InitialState && effects == []
    {
      username, password, isLoading, errorMessage := "", "", false, "";
      effects := [];
    }

    method SetUsername(u: string)
      modifies this
      ensures State() == old(State()).(username := u) && effects == old(effects)
    {
      username := u;
    }

    method SetPassword(p: string)
      modifies this
      ensures State() == old(State()).(password := p) && effects == old(effects)
    {
      password := p;
    }

    /** Runs the handler against `ctx`; on success the session then holds
        the returned token, otherwise it is left as it was. */
    method HandleSubmit(ctx: TokenContext, outcome: Outcome<SignInData>)
      modifies this, ctx.Footprint()
      ensures State() == Submit(old(State()), outcome).state
      ensures effects == old(effects) + Submit(old(State()), outcome).effects
      ensures ctx.Provided? ==>
        ctx.provider.token == (if outcome.Ok? && HasToken(outcome.value) then outcome.value.token.value
                               else old(ctx.provider.token))
      ensures ctx.Provided? && outcome.Ok? && HasToken(outcome.value) ==> ctx.provider.HasToken()
    {
      isLoading := true;
      effects := effects + [Send(SignIn(username, password))];
      var caught: Caught;
      match outcome {
        case Ok(data) =>
          if HasToken(data) {
            ctx.Login(data.token.value);
            effects := effects + [CallLogin(data.token.value)];
            effects := effects + [Navigate(AfterSignIn, true)];
            return;
          }
          caught := OtherError(MissingToken);
        case Fail(e) =>
          caught := FromHttpError(e);
      }
      errorMessage := ErrorMessageFor(caught);
      isLoading := false;
    }
  }
}
