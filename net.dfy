/**
 * The session layer of the client: the `access_token` entry kept in two browser
 * storages, the bearer header derived from it, the classification of the
 * server's `{code, data, message}` envelope, and login/logout built on these.
 *
 * `localStorage` is the durable storage, `sessionStorage` the tab-lifetime one.
 * Both are held under the single key `access_token`, so each storage is modelled
 * as one optional entry. The clock (`new Date()`) is an `int` argument `now`,
 * and the server's answer to a request is an input value of type `Response`.
 */
module Net {
  import opened Wrappers

  // ---------------------------------------------------------------------------
  // Stored state
  // ---------------------------------------------------------------------------

  /** The record stored under `access_token`: the bearer token and its expiry instant. */
  datatype Entry = Entry(token: string, expire: int)

  /** What the two storages hold under `access_token`. */
  datatype StorageState = StorageState(durable: Option<Entry>, session: Option<Entry>)

  /** Neither storage holds `access_token`. */
  const Cleared := StorageState(None, None)

  /** The state after `storeToken(token, expire, remember)`. */
  function Stored(s: StorageState, token: string, expire: int, remember: bool): (r: StorageState)
    // exactly one storage receives the entry; the other keeps what it had
    ensures remember ==> r.durable == Some(Entry(token, expire)) && r.session == s.session
    ensures !remember ==> r.session == Some(Entry(token, expire)) && r.durable == s.durable
  {
    if remember then s.(durable := Some(Entry(token, expire)))
    else s.(session := Some(Entry(token, expire)))
  }

  /** The entry `getToken` looks at: the durable one when there is one, else the session one. */
  function Selected(s: StorageState): Option<Entry>
  {
    if s.durable.Some? then s.durable else s.session
  }

  /** What one `getToken` call returns, and the storage state it leaves behind. */
  datatype Read = Read(token: Option<string>, after: StorageState)

  /** `getToken` at clock value `now`: lazy expiry, durable storage first. */
  function ReadToken(s: StorageState, now: int): (r: Read)
    // durable storage is consulted first; an expired entry empties both storages
    ensures s.durable.Some? && s.durable.value.expire <= now ==> r == Read(None, Cleared)
    ensures s.durable.Some? && s.durable.value.expire > now ==> r == Read(Some(s.durable.value.token), s)
    // session storage is read only when durable storage holds nothing
    ensures s.durable.None? && s.session.Some? && s.session.value.expire <= now ==> r == Read(None, Cleared)
    ensures s.durable.None? && s.session.Some? && s.session.value.expire > now ==> r == Read(Some(s.session.value.token), s)
    // nothing stored: absent, nothing changes
    ensures s.durable.None? && s.session.None? ==> r == Read(None, s)
    // a token is returned exactly when no eviction happened and storage is unchanged
    ensures r.token.Some? <==> Selected(s).Some? && Selected(s).value.expire > now
    ensures r.after == s || r.after == Cleared
  {
    match Selected(s)
    case None => Read(None, s)
    case Some(e) => if e.expire <= now then Read(None, Cleared) else Read(Some(e.token), s)
  }

  /** A second `getToken` at the same instant returns the same token and changes nothing. */
  lemma ReadIdempotent(s: StorageState, now: int)
    ensures ReadToken(ReadToken(s, now).after, now) == ReadToken(s, now)
  {
  }

  /** Once `getToken` reports absent, a read at any instant reports absent and changes
      nothing: both storages are then empty. */
  lemma AbsenceIsSticky(s: StorageState, now: int, later: int)
    requires ReadToken(s, now).token.None?
    ensures ReadToken(ReadToken(s, now).after, later) == Read(None, ReadToken(s, now).after)
  {
  }

  /** Once the user counts as unauthenticated (no token, or the falsy empty token), a read
      at any instant agrees until something is stored again. */
  lemma UnauthenticatedIsSticky(s: StorageState, now: int, later: int)
    requires !Truthy(ReadToken(s, now).token)
    ensures !Truthy(ReadToken(ReadToken(s, now).after, later).token)
  {
  }

  /** `storeToken` followed by `getToken` before the expiry returns the stored token,
      provided the stored entry is the one `getToken` selects. */
  lemma StoreThenRead(s: StorageState, token: string, expire: int, remember: bool, now: int)
    requires now < expire
    requires remember || s.durable.None?
    ensures ReadToken(Stored(s, token, expire, remember), now)
         == Read(Some(token), Stored(s, token, expire, remember))
  {
  }

  /** Once the clock reaches the expiry of the entry `getToken` selects, the read reports
      absent and leaves both storages empty. */
  lemma StoredTokenExpires(s: StorageState, token: string, expire: int, remember: bool, later: int)
    requires expire <= later
    requires remember || s.durable.None?
    ensures ReadToken(Stored(s, token, expire, remember), later) == Read(None, Cleared)
  {
  }

  /** A session-scoped `storeToken` is invisible while a durable entry exists: `getToken`
      answers from the durable entry, and if that one expired the fresh session entry is
      evicted with it. */
  lemma StaleDurableShadowsSession(s: StorageState, token: string, expire: int, now: int)
    requires s.durable.Some?
    ensures ReadToken(Stored(s, token, expire, false), now).token == ReadToken(s, now).token
    ensures s.durable.value.expire <= now ==>
              ReadToken(Stored(s, token, expire, false), now).after == Cleared
  {
  }

  // ---------------------------------------------------------------------------
  // The storages as the browser object that is updated in place
  // ---------------------------------------------------------------------------

  /** `localStorage` and `sessionStorage`, restricted to the key `access_token`. */
  class TokenStore {
    var durable: Option<Entry>
    var session: Option<Entry>

    /** The abstract value of the two storages. */
    function State(): StorageState
      reads this
    {
      StorageState(durable, session)
    }

    constructor (init: StorageState)
      ensures State() == init
    {
      durable := init.durable;
      session := init.session;
    }

    /** `storeToken`: writes `{token, expire}` to exactly one storage. */
    method StoreToken(token: string, expire: int, remember: bool)
      modifies this
      ensures State() == Stored(old(State()), token, expire, remember)
    {
      var entry := Entry(token, expire);
      if remember {
        durable := Some(entry);
      } else {
        session := Some(entry);
      }
    }

    /** `deleteToken`: removes `access_token` from both storages. Since the result does
        not depend on the state before, a second call changes nothing. */
    method DeleteToken()
      modifies this
      ensures State() == Cleared
    {
      durable := None;
      session := None;
    }

    /** `getToken`: reads durable storage first; an expired entry is evicted from both. */
    method GetToken(now: int) returns (token: Option<string>)
      modifies this
      ensures Read(token, State()) == ReadToken(old(State()), now)
    {
      var selected := Selected(State());
      if selected.Some? {
        if selected.value.expire <= now {
          DeleteToken();
          token := None;
        } else {
          token := Some(selected.value.token);
        }
      } else {
        token := None;
      }
    }
  }

  // ---------------------------------------------------------------------------
  // Request signing
  // ---------------------------------------------------------------------------

  /** JavaScript truthiness of what `getToken` returns: `null` and `""` are falsy. */
  predicate Truthy(token: Option<string>)
  {
    token.Some? && token.value != ""
  }

  const BearerPrefix := "Bearer "

  /** The header object `getAccessHeader` builds from a `getToken` result. */
  function BearerHeader(token: Option<string>): (h: map<string, string>)
    ensures "Authorization" in h <==> Truthy(token)
    ensures h.Keys <= {"Authorization"}
  {
    if Truthy(token) then map["Authorization" := BearerPrefix + token.value] else map[]
  }

  /** How a receiver recovers the token from a header: `Authorization` minus `"Bearer "`. */
  function HeaderToken(h: map<string, string>): Option<string>
  {
    if "Authorization" in h && BearerPrefix <= h["Authorization"]
    then Some(h["Authorization"][|BearerPrefix|..])
    else None
  }

  /** The header carries exactly the token `getToken` returned, when that token is truthy,
      and no credential otherwise. */
  lemma BearerRoundTrip(token: Option<string>)
    ensures HeaderToken(BearerHeader(token)) == if Truthy(token) then token else None
  {
  }

  // ---------------------------------------------------------------------------
  // Responses and their classification
  // ---------------------------------------------------------------------------

  /** What the transport delivers for one request: a rejection (network failure, a
      non-2xx status, or an unusable body) or the parsed envelope. */
  datatype Response<D> =
    | TransportError(cause: string)
    | Envelope(code: int, data: D, message: string)

  /** Which of the three callbacks a request ends in, with the arguments it receives. */
  datatype Outcome<D> =
    | Success(data: D)
    | Failure(url: string, code: int, message: string)
    | Error(cause: string)

  /** The `.then`/`.catch` routing shared by `internalPost` and `internalGet`. */
  function Classify<D>(url: string, resp: Response<D>): (o: Outcome<D>)
    ensures o.Success? <==> resp.Envelope? && resp.code == 200
    ensures o.Failure? <==> resp.Envelope? && resp.code != 200
    ensures o.Error? <==> resp.TransportError?
    ensures o.Success? ==> o.data == resp.data
    ensures o.Failure? ==> o.url == url && o.code == resp.code && o.message == resp.message
    ensures o.Error? ==> o.cause == resp.cause
  {
    match resp
    case TransportError(cause) => Error(cause)
    case Envelope(code, data, message) =>
      if code == 200 then Success(data) else Failure(url, code, message)
  }

  datatype Verb = GetVerb | PostVerb

  /** The request as it leaves the client: verb, url, body and headers. */
  datatype Request<B> = Request(verb: Verb, url: string, body: Option<B>, headers: map<string, string>)

  // ---------------------------------------------------------------------------
  // Operations on the shared storages
  // ---------------------------------------------------------------------------

  /** `getAccessHeader`: reads the token (possibly evicting it) and builds the header. */
  method GetAccessHeader(store: TokenStore, now: int) returns (h: map<string, string>)
    modifies store
    ensures h == BearerHeader(ReadToken(old(store.State()), now).token)
    ensures store.State() == ReadToken(old(store.State()), now).after
  {
    var token := store.GetToken(now);
    h := BearerHeader(token);
  }

  /** `post`: a signed POST whose response is classified. */
  method Post<B, D>(store: TokenStore, url: string, body: B, now: int, resp: Response<D>)
    returns (req: Request<B>, out: Outcome<D>)
    modifies store
    ensures req == Request(PostVerb, url, Some(body), BearerHeader(ReadToken(old(store.State()), now).token))
    ensures out == Classify(url, resp)
    ensures store.State() == ReadToken(old(store.State()), now).after
  {
    var header := GetAccessHeader(store, now);
    req := Request(PostVerb, url, Some(body), header);
    out := Classify(url, resp);
  }

  /** `get`: a signed GET whose response is classified. */
  method Get<D>(store: TokenStore, url: string, now: int, resp: Response<D>)
    returns (req: Request<()>, out: Outcome<D>)
    modifies store
    ensures req == Request(GetVerb, url, None, BearerHeader(ReadToken(old(store.State()), now).token))
    ensures out == Classify(url, resp)
    ensures store.State() == ReadToken(old(store.State()), now).after
  {
    var header := GetAccessHeader(store, now);
    req := Request(GetVerb, url, None, header);
    out := Classify(url, resp);
  }

  const LoginUrl := "/auth/login"
  const LogoutUrl := "/auth/logout"
  const FormHeader := map["Content-Type" := "application/x-www-form-urlencoded"]

  /** The form fields `login` sends. */
  datatype Credentials = Credentials(username: string, password: string)

  /** The part of a successful login payload that the client uses. */
  datatype LoginData = LoginData(token: string, expire: int, username: string)

  /** `login`: posts the credentials form-encoded, without a bearer header; on success it
      stores the server's token in the scope `remember` chooses, before `success()` runs. */
  method Login(store: TokenStore, username: string, password: string, remember: bool, resp: Response<LoginData>)
    returns (req: Request<Credentials>, out: Outcome<LoginData>)
    modifies store
    ensures req == Request(PostVerb, LoginUrl, Some(Credentials(username, password)), FormHeader)
    ensures out == Classify(LoginUrl, resp)
    ensures out.Success? ==> store.State() == Stored(old(store.State()), out.data.token, out.data.expire, remember)
    ensures !out.Success? ==> store.State() == old(store.State())
  {
    req := Request(PostVerb, LoginUrl, Some(Credentials(username, password)), FormHeader);
    out := Classify(LoginUrl, resp);
    if out.Success? {
      store.StoreToken(out.data.token, out.data.expire, remember);
    }
  }

  /** `logout`: a signed GET to the logout endpoint; only a `code == 200` answer clears
      the storages. Signing the request may already have evicted an expired token. */
  method Logout<D>(store: TokenStore, now: int, resp: Response<D>)
    returns (req: Request<()>, out: Outcome<D>)
    modifies store
    ensures req == Request(GetVerb, LogoutUrl, None, BearerHeader(ReadToken(old(store.State()), now).token))
    ensures out == Classify(LogoutUrl, resp)
    ensures out.Success? ==> store.State() == Cleared
    ensures !out.Success? ==> store.State() == ReadToken(old(store.State()), now).after
    // a successful logout leaves no token for any later read
    ensures out.Success? ==> forall later :: ReadToken(store.State(), later).token.None?
    // a failed logout keeps a still-valid token where it was
    ensures !out.Success? && Truthy(ReadToken(old(store.State()), now).token) ==>
              store.State() == old(store.State())
  {
    req, out := Get(store, LogoutUrl, now, resp);
    if out.Success? {
      store.DeleteToken();
    }
  }

  /** `isUnauthorizedToken`: `getToken` returned nothing truthy. */
  method IsUnauthorizedToken(store: TokenStore, now: int) returns (unauthorized: bool)
    modifies store
    ensures unauthorized == !Truthy(ReadToken(old(store.State()), now).token)
    ensures store.State() == ReadToken(old(store.State()), now).after
  {
    var token := store.GetToken(now);
    unauthorized := !Truthy(token);
  }

  /** After a successful login whose entry `getToken` selects, the user counts as
      authenticated until the expiry, provided the server issued a non-empty token. */
  lemma LoginAuthenticates(s: StorageState, data: LoginData, remember: bool, now: int)
    requires now < data.expire && data.token != ""
    requires remember || s.durable.None?
    ensures Truthy(ReadToken(Stored(s, data.token, data.expire, remember), now).token)
  {
  }
}
