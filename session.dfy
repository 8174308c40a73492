/** The authentication store (`AuthProvider` in src/context/AuthContext.tsx):
    the session token, the loading flag, the `Authorization` default header
    of the shared HTTP client and the persisted `userToken` entry. */
module Session {
  import opened Outcomes

  /** The AsyncStorage key the token is persisted under. */
  const TokenKey: string := "userToken"

  /** The value given to `api.defaults.headers.common['Authorization']`. */
  function BearerHeader(token: string): string
  {
    "Bearer " + token
  }

  /** The user record the profile screens read through `useAuth()`. It is not
      declared by the store's context type; the screens treat it as an
      optional record that `updateUser` replaces wholesale. */
  datatype User = User(nome: string, avatarId: Option<string>)

  /** `!!token`: a present, non-empty token. */
  predicate HasToken(token: Option<string>)
  {
    token.Some? && token.value != ""
  }

  class AuthStore {
    var token: Option<string>
    var isLoading: bool
    /** The shared client's `Authorization` header (None: no such key). */
    var authorization: Option<string>
    /** The device's AsyncStorage contents. */
    var storage: map<string, string>

    /** Mounting the provider: no token yet and still loading; the storage
        and the client header are whatever the process already has. */
    constructor (storage: map<string, string>, authorization: Option<string>)
      ensures token == None && isLoading
      ensures this.storage == storage && this.authorization == authorization
    {
      this.token := None;
      this.isLoading := true;
      this.storage := storage;
      this.authorization := authorization;
    }

    /** `isAuthenticated` as the context exposes it. */
    predicate IsAuthenticated()
      reads this
      ensures IsAuthenticated() <==> token.Some? && |token.value| > 0
    {
      HasToken(token)
    }

    /** The stored token that `loadToken` adopts when the read succeeds. */
    function Stored(): Option<string>
      reads this
    {
      if TokenKey in storage then Some(storage[TokenKey]) else None
    }

    /** `loadToken`: a non-empty stored token becomes the session token and
        arms the header; an absent or empty entry, or a failed read, leaves
        both as they were. Loading ends in every case and nothing is
        written to storage. */
    method LoadToken(read: IoStatus)
      modifies this
      ensures !isLoading && storage == old(storage)
      ensures read == Succeeds && HasToken(old(Stored())) ==>
        token == old(Stored()) && authorization == Some(BearerHeader(old(Stored()).value))
      ensures !(read == Succeeds && HasToken(old(Stored()))) ==>
        token == old(token) && authorization == old(authorization)
    {
      if read == Succeeds {
        var storedToken := Stored();
        if HasToken(storedToken) {
          token := storedToken;
          authorization := Some(BearerHeader(storedToken.value));
        }
      }
      isLoading := false;
    }

    /** `login(email, senha)` once `POST /auth/login` has settled with
        `response` (the token of its body) and the storage write with
        `write`. A rejected request is rethrown and changes nothing. After
        a resolved request the token and the header are set before the
        write; a failed write is rethrown too, but leaves them set. */
    method Login(response: Outcome<string>, write: IoStatus) returns (r: Outcome<()>)
      modifies this
      ensures isLoading == old(isLoading)
      ensures response.Err? ==>
        r == Err(response.failure) && token == old(token)
        && authorization == old(authorization) && storage == old(storage)
      ensures response.Ok? ==>
        token == Some(response.value) && authorization == Some(BearerHeader(response.value))
      ensures response.Ok? && write == Succeeds ==>
        r == Ok(()) && storage == old(storage)[TokenKey := response.value]
      ensures response.Ok? && write == Fails ==>
        r == Err(StorageError) && storage == old(storage)
    {
      match response
      case Err(failure) =>
        r := Err(failure);
      case Ok(newToken) =>
        token := Some(newToken);
        authorization := Some(BearerHeader(newToken));
        if write == Succeeds {
          storage := storage[TokenKey := newToken];
          r := Ok(());
        } else {
          r := Err(StorageError);
        }
    }

    /** `logout`: the token and the header are cleared whatever happens; the
        stored entry is removed unless the removal fails, and that failure
        is swallowed. */
    method Logout(remove: IoStatus)
      modifies this
      ensures token == None && authorization == None && !IsAuthenticated()
      ensures isLoading == old(isLoading)
      ensures storage == if remove == Succeeds then old(storage) - {TokenKey} else old(storage)
    {
      token := None;
      authorization := None;
      if remove == Succeeds {
        storage := storage - {TokenKey};
      }
    }
  }

  /** A successful login survives a restart: a new provider over the same
      storage loads the token back (an empty token is stored too, but is
      not adopted). */
  method RestartAfterLogin(storage: map<string, string>, newToken: string)
    returns (restored: Option<string>, authenticated: bool)
    ensures restored == (if newToken != "" then Some(newToken) else None)
    ensures authenticated <==> newToken != ""
  {
    var first := new AuthStore(storage, None);
    first.LoadToken(Succeeds);
    var _ := first.Login(Ok(newToken), Succeeds);
    var second := new AuthStore(first.storage, None);
    second.LoadToken(Succeeds);
    restored, authenticated := second.token, second.IsAuthenticated();
  }

  /** Logging out survives a restart only when the storage removal
      succeeded: the swallowed failure leaves the old token on disk, and
      the next launch signs the user back in. */
  method RestartAfterLogout(storage: map<string, string>, remove: IoStatus)
    returns (authenticated: bool)
    ensures authenticated <==> remove == Fails && TokenKey in storage && storage[TokenKey] != ""
  {
    var first := new AuthStore(storage, None);
    first.LoadToken(Succeeds);
    first.Logout(remove);
    var second := new AuthStore(first.storage, first.authorization);
    second.LoadToken(Succeeds);
    authenticated := second.IsAuthenticated();
  }

  /** A rejected login from a signed-out start leaves the user signed out,
      surfaces the request's own failure and persists nothing. */
  method RejectedLogin(storage: map<string, string>, failure: Failure)
    returns (r: Outcome<()>, authenticated: bool, persisted: map<string, string>)
    requires TokenKey !in storage
    ensures r == Err(failure) && !authenticated && persisted == storage
  {
    var store := new AuthStore(storage, None);
    store.LoadToken(Succeeds);
    r := store.Login(Err(failure), Succeeds);
    authenticated, persisted := store.IsAuthenticated(), store.storage;
  }
}
