/** The session provider: the signed-in user, the access token it exposes, the
    loading flag, and the storage it restores the session from. Navigation is
    recorded as the last path navigated to. */
module AuthContext {
  import opened Wrappers
  import opened Storage
  import opened AuthUtils
  import UseAuth

  const USER_KEY := "user_data"
  const DASHBOARD_PATH := "/dashboard"
  const SIGN_IN_PATH := "/auth/signin"

  datatype User = User(id: string, username: string, name: Option<string>, email: Option<string>)

  /** The fields the provider reads at the top level of a mutation's result. */
  datatype TopLevel = TopLevel(accessToken: Option<string>, user: Option<User>)

  /** A login response body: the nested token pair the login mutation stores,
      and the top-level fields the provider reads. */
  datatype LoginBody = LoginBody(nested: UseAuth.AuthResponse, top: TopLevel)

  /** What `JSON.parse` makes of the stored user record: it throws, it yields a
      value that is not a user object (`null`, a number, a string, an array),
      or it yields a user record. */
  datatype ParsedUser = Threw | NotAUser | AUser(user: User)

  /** The user state `setUser` leaves for a parsed value; a value that is not a
      user object exposes no user fields, like `null`. */
  function UserOf(p: ParsedUser): (u: Option<User>)
    ensures u.Some? <==> p.AUser?
    ensures p.AUser? ==> u == Some(p.user)
  {
    if p.AUser? then Some(p.user) else None
  }

  /** The provider's state. */
  datatype Session = Session(user: Option<User>, accessToken: Option<string>, isLoading: bool, location: Option<string>)

  const INITIAL := Session(None, None, true, None)

  /** `!!accessToken` */
  function IsAuthenticated(s: Session): (b: bool)
    ensures b <==> s.accessToken.Some? && s.accessToken.value != ""
  {
    s.accessToken.Some? && s.accessToken.value != ""
  }


  /** `initializeAuth` as written: the token is put into the state before the
      stored user record is parsed, so a record that fails to parse leaves the
      token in place while all three keys are removed. `parse` stands for
      `JSON.parse`. */
  function Restore(s: Session, items: map<string, string>, parse: string -> ParsedUser): (Session, map<string, string>) {
    var storedToken := Lookup(items, TOKEN_KEY);
    var storedUser := Lookup(items, USER_KEY);
    if Present(storedToken) && Present(storedUser) then
      match parse(storedUser.value)
      case Threw => (s.(accessToken := storedToken, isLoading := false), items - {TOKEN_KEY, REFRESH_TOKEN_KEY, USER_KEY})
      case _ => (s.(accessToken := storedToken, user := UserOf(parse(storedUser.value)), isLoading := false), items)
    else
      (s.(isLoading := false), items)
  }

  /** `initializeAuth` with the record parsed and checked to be a user before
      any state is set; anything else is treated as a broken record. */
  function RestoreChecked(s: Session, items: map<string, string>, parse: string -> ParsedUser): (Session, map<string, string>) {
    var storedToken := Lookup(items, TOKEN_KEY);
    var storedUser := Lookup(items, USER_KEY);
    if Present(storedToken) && Present(storedUser) then
      match parse(storedUser.value)
      case AUser(u) => (s.(accessToken := storedToken, user := Some(u), isLoading := false), items)
      case _ => (s.(isLoading := false), items - {TOKEN_KEY, REFRESH_TOKEN_KEY, USER_KEY})
    else
      (s.(isLoading := false), items)
  }

  /** Restoring ends loading on every path, and from the initial state it yields
      a session exactly when both the token and the user record are stored; a
      user is exposed exactly when the record also parses to a user object. */
  lemma RestoreFromInitial(items: map<string, string>, parse: string -> ParsedUser)
    ensures !Restore(INITIAL, items, parse).0.isLoading
    ensures IsAuthenticated(Restore(INITIAL, items, parse).0) <==>
      TOKEN_KEY in items && items[TOKEN_KEY] != "" && USER_KEY in items && items[USER_KEY] != ""
    ensures Restore(INITIAL, items, parse).0.user.Some? <==>
      TOKEN_KEY in items && items[TOKEN_KEY] != "" && USER_KEY in items && items[USER_KEY] != ""
      && parse(items[USER_KEY]).AUser?
    ensures var (s, _) := Restore(INITIAL, items, parse);
      s.user.Some? ==> s.accessToken == Some(items[TOKEN_KEY]) && parse(items[USER_KEY]) == AUser(s.user.value)
    ensures var after := Restore(INITIAL, items, parse).1;
      if TOKEN_KEY in items && items[TOKEN_KEY] != "" && USER_KEY in items && items[USER_KEY] != ""
         && parse(items[USER_KEY]).Threw?
      then after.Keys == items.Keys - {TOKEN_KEY, REFRESH_TOKEN_KEY, USER_KEY}
           && forall k :: k in after ==> after[k] == items[k]
      else after == items
  {
  }

  /** As written, a stored token beside a user record that does not parse gives
      an authenticated session over a store that no longer holds any token. */
  lemma RestoreThrowKeepsToken()
    ensures var items := map[TOKEN_KEY := "abc", USER_KEY := "{"];
      var (s, after) := Restore(INITIAL, items, (_: string) => Threw);
      IsAuthenticated(s) && s.user.None? && after == map[]
  {
    var items := map[TOKEN_KEY := "abc", USER_KEY := "{"];
    assert items - {TOKEN_KEY, REFRESH_TOKEN_KEY, USER_KEY} == map[];
  }

  /** As written, a stored record that parses to something other than a user
      object, such as `null`, gives an authenticated session with no user, and
      the store keeps every key. */
  lemma RestoreNonUserKeepsToken(items: map<string, string>, parse: string -> ParsedUser)
    requires TOKEN_KEY in items && items[TOKEN_KEY] != "" && USER_KEY in items && items[USER_KEY] != ""
    requires parse(items[USER_KEY]).NotAUser?
    ensures var (s, after) := Restore(INITIAL, items, parse);
      IsAuthenticated(s) && s.user.None? && after == items
  {
  }

  /** With the record parsed and checked first, a session is restored exactly
      when both keys are stored and the record parses to a user object; any
      other record leaves the session signed out and the three keys removed. */
  lemma RestoreCheckedSignsOutOnFailure(items: map<string, string>, parse: string -> ParsedUser)
    ensures !RestoreChecked(INITIAL, items, parse).0.isLoading
    ensures IsAuthenticated(RestoreChecked(INITIAL, items, parse).0) <==>
      TOKEN_KEY in items && items[TOKEN_KEY] != "" && USER_KEY in items && items[USER_KEY] != "" && parse(items[USER_KEY]).AUser?
    ensures var (s, after) := RestoreChecked(INITIAL, items, parse);
      IsAuthenticated(s) <==> s.user.Some?
    ensures USER_KEY in items && !parse(items[USER_KEY]).AUser? && Present(Lookup(items, TOKEN_KEY)) && items[USER_KEY] != "" ==>
      RestoreChecked(INITIAL, items, parse).1 == items - {TOKEN_KEY, REFRESH_TOKEN_KEY, USER_KEY}
  {
  }

  /** `login`: a failed mutation, or a login `onSuccess` that threw, rejects and
      changes no state; otherwise the top-level `accessToken` and `user` of the
      result are taken and the dashboard is opened. */
  function LoginStep(s: Session, items: map<string, string>, outcome: UseAuth.Outcome<LoginBody>): (Session, map<string, string>) {
    match outcome
    case Failed(_) => (s, items)
    case Succeeded(body) =>
      var (written, threw) := UseAuth.LoginSuccessWrites(items, body.nested);
      if threw then (s, written)
      else (s.(accessToken := body.top.accessToken, user := body.top.user, location := Some(DASHBOARD_PATH)), written)
  }

  /** For a response of the declared shape (the tokens nested under `data`,
      nothing at the top level), login stores the tokens and opens the
      dashboard, but the session it exposes is not authenticated. */
  lemma LoginWithDeclaredShape(s: Session, items: map<string, string>, access: string, refresh: string)
    ensures var body := LoginBody(UseAuth.AuthResponse(Some(UseAuth.TokenPair(Some(access), Some(refresh)))), TopLevel(None, None));
      var (next, written) := LoginStep(s, items, UseAuth.Succeeded(body));
      && TokensIn(written) == StoredTokens(Some(access), Some(refresh))
      && next.location == Some(DASHBOARD_PATH)
      && !IsAuthenticated(next)
  {
    UseAuth.LoginStoresTokenPair(items, access, refresh);
  }

  /** A login that fails changes neither the state nor the store. */
  lemma LoginFailureChangesNothing(s: Session, items: map<string, string>, message: string)
    ensures LoginStep(s, items, UseAuth.Failed(message)) == (s, items)
  {
  }

  /** `signup`: registration writes nothing; on success the top-level fields of
      its result are taken and the dashboard is opened. */
  function SignupStep(s: Session, outcome: UseAuth.Outcome<TopLevel>): (r: Session)
    ensures outcome.Failed? ==> r == s
    ensures outcome.Succeeded? ==>
      r.accessToken == outcome.value.accessToken && r.user == outcome.value.user &&
      r.location == Some(DASHBOARD_PATH) && r.isLoading == s.isLoading
  {
    match outcome
    case Failed(_) => s
    case Succeeded(top) => s.(accessToken := top.accessToken, user := top.user, location := Some(DASHBOARD_PATH))
  }

  /** `logout`: the mutation always resolves, so its `onSuccess` removes the two
      tokens; then the state is cleared and the sign-in page opened. */
  function LogoutStep(s: Session, items: map<string, string>): (Session, map<string, string>) {
    (s.(accessToken := None, user := None, location := Some(SIGN_IN_PATH)), UseAuth.LogoutWrites(items))
  }

  /** After logout the session is signed out, no token is stored, the user
      record is kept, and logging out again changes nothing more. */
  lemma LogoutSignsOut(s: Session, items: map<string, string>)
    ensures var (next, after) := LogoutStep(s, items);
      && !IsAuthenticated(next) && next.user.None? && next.location == Some(SIGN_IN_PATH)
      && TokensIn(after) == StoredTokens(None, None)
      && (USER_KEY in items ==> USER_KEY in after && after[USER_KEY] == items[USER_KEY])
      && LogoutStep(next, after) == (next, after)
  {
    UseAuth.LogoutIdempotent(items);
  }

  class AuthProvider {
    var user: Option<User>
    var accessToken: Option<string>
    var isLoading: bool
    var location: Option<string>
    const storage: WebStorage

    function State(): Session
      reads this
    {
      Session(user, accessToken, isLoading, location)
    }

    constructor (storage: WebStorage)
      ensures this.storage == storage
      ensures State() == INITIAL
    {
      this.storage := storage;
      user := None;
      accessToken := None;
      isLoading := true;
      location := None;
    }

    /** The mount effect `initializeAuth`, as written. */
    method InitializeAuth(parse: string -> ParsedUser)
      modifies this, storage
      ensures (State(), storage.items) == Restore(old(State()), old(storage.items), parse)
    {
      var storedToken := storage.GetItem(TOKEN_KEY);
      var storedUser := storage.GetItem(USER_KEY);
      if Present(storedToken) && Present(storedUser) {
        accessToken := storedToken;
        var parsed := parse(storedUser.value);
        if parsed.Threw? {
          ghost var before := storage.items;
          storage.RemoveItem(TOKEN_KEY);
          storage.RemoveItem(REFRESH_TOKEN_KEY);
          storage.RemoveItem(USER_KEY);
          assert storage.items == before - {TOKEN_KEY, REFRESH_TOKEN_KEY, USER_KEY};
        } else {
          user := UserOf(parsed);
        }
      }
      isLoading := false;
    }

    /** `login(username, password)`, given how the mutation's call ended. */
    method Login(outcome: UseAuth.Outcome<LoginBody>) returns (rejected: bool)
      modifies this, storage
      ensures (State(), storage.items) == LoginStep(old(State()), old(storage.items), outcome)
      ensures rejected <==> outcome.Failed? || outcome.value.nested.data.None?
    {
      if outcome.Failed? {
        return true;
      }
      var threw := UseAuth.OnLoginSuccess(storage, outcome.value.nested);
      if threw {
        return true;
      }
      accessToken := outcome.value.top.accessToken;
      user := outcome.value.top.user;
      location := Some(DASHBOARD_PATH);
      rejected := false;
    }

    /** `signup(name, username, password)`, given how the mutation's call ended. */
    method Signup(outcome: UseAuth.Outcome<TopLevel>)
      modifies this
      ensures State() == SignupStep(old(State()), outcome)
    {
      if outcome.Succeeded? {
        accessToken := outcome.value.accessToken;
        user := outcome.value.user;
        location := Some(DASHBOARD_PATH);
      }
    }

    /** `logout()`: the mutation's `onSuccess`, then its `onSettled`. */
    method Logout()
      modifies this, storage
      ensures (State(), storage.items) == LogoutStep(old(State()), old(storage.items))
    {
      UseAuth.OnLogoutSuccess(storage);
      accessToken := None;
      user := None;
      location := Some(SIGN_IN_PATH);
    }
  }
}
