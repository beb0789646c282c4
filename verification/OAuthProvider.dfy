/** oauth/provider.py and the login handler of oauth/login.py. A state is the four
    tables, the parked requests and a history of what was minted and what was spent;
    the history is bookkeeping for the proofs. Minted strings are arguments. */
module OAuthProvider {
  import opened Text
  import opened OAuthStore

  const AUTH_CODE_TTL := 300.0
  const PENDING_TTL := 600.0
  const STATIC_CLIENT_ID := "static-token"
  const SUBJECT := "owner"

  datatype Params = Params(
    state: Option<string>,
    scopes: Option<seq<string>>,
    codeChallenge: string,
    redirectUri: string,
    explicitUri: bool,
    resource: Option<string>)

  /** An authorization request parked while the browser is at the login page. */
  datatype Pending = Pending(client: Client, params: Params, createdAt: real)

  datatype Config = Config(
    staticToken: string,
    accessTtl: int,
    refreshTtl: int,
    scopes: seq<string>,
    passphrase: string)

  datatype Fact =
    | Parked(rid: string)
    | Approved(rid: string, clientId: string, scopes: seq<string>, code: string)
    | Issued(parent: string, scopes: seq<string>, access: string, refresh: string)
    | Spent(name: string)

  /** Facts in the order they came about. */
  datatype History = Begun | Then(earlier: History, fact: Fact)

  datatype State = State(db: Tables, pending: map<string, Pending>, history: History)

  /** Where the login page sends the browser: the client's URI with a code. */
  datatype Redirect = Redirect(uri: string, code: string, state: Option<string>)

  datatype LoginResult = Expired | WrongPassphrase | Redirected(redirect: Redirect)

  // -- what each provider call does --------------------------------------------

  predicate Overdue(p: Pending, now: real) { p.createdAt < now - PENDING_TTL }

  function StillPending(pending: map<string, Pending>, now: real): map<string, Pending> {
    map rid | rid in pending && !Overdue(pending[rid], now) :: pending[rid]
  }

  /** `a or b` on lists: an empty list counts as none. */
  function ScopesOr(a: seq<string>, b: seq<string>): seq<string> { if a != [] then a else b }

  function Authorized(s: State, client: Client, params: Params, rid: string, now: real): State {
    s.(pending := StillPending(s.pending, now)[rid := Pending(client, params, now)],
       history := Then(s.history, Parked(rid)))
  }

  function LookupPending(s: State, rid: string, now: real): (State, Option<Client>) {
    var pending := StillPending(s.pending, now);
    (s.(pending := pending), if rid in pending then Some(pending[rid].client) else None)
  }

  function GrantedScopes(cfg: Config, params: Params): seq<string> {
    ScopesOr(if params.scopes.Some? then params.scopes.value else [], cfg.scopes)
  }

  function MintCode(cfg: Config, p: Pending, code: string, now: real): AuthCode {
    AuthCode(code, GrantedScopes(cfg, p.params), now + AUTH_CODE_TTL, p.client.clientId, p.params.codeChallenge,
             p.params.redirectUri, p.params.explicitUri, p.params.resource, Some(SUBJECT))
  }

  function Completed(cfg: Config, s: State, rid: string, code: string, now: real): (State, Option<Redirect>) {
    var pending := StillPending(s.pending, now);
    if rid !in pending then (s.(pending := pending), None)
    else
      var p := pending[rid];
      var minted := MintCode(cfg, p, code, now);
      (State(Step(s.db, PutCode(minted), now).0, pending - {rid},
             Then(s.history, Approved(rid, p.client.clientId, minted.scopes, code))),
       Some(Redirect(p.params.redirectUri, code, p.params.state)))
  }

  /** Loading a code consumes it. */
  function LoadCode(s: State, code: string, now: real): (State, Option<AuthCode>) {
    var r := Step(s.db, TakeCode(code), now);
    (s.(db := r.0, history := if code in s.db.codes then Then(s.history, Spent(code)) else s.history), r.1.authCode)
  }

  /** Python's `int` of a float drops the fraction. */
  function Trunc(x: real): int { if x >= 0.0 then x.Floor else -((-x).Floor) }

  function NewToken(name: string, client: Client, scopes: seq<string>, ttl: int, subject: Option<string>, now: real): Token {
    Token(name, client.clientId, scopes, Some(Trunc(now + ttl as real)), subject)
  }

  function Issue(cfg: Config, s: State, client: Client, scopes: seq<string>, subject: Option<string>,
                 parent: string, access: string, refresh: string, now: real): State {
    var db := Step(s.db, PutAccess(NewToken(access, client, scopes, cfg.accessTtl, subject, now)), now).0;
    State(Step(db, PutRefresh(NewToken(refresh, client, scopes, cfg.refreshTtl, subject, now)), now).0,
          s.pending, Then(s.history, Issued(parent, scopes, access, refresh)))
  }

  function ExchangeCode(cfg: Config, s: State, client: Client, c: AuthCode, access: string, refresh: string, now: real): State {
    Issue(cfg, s, client, c.scopes, c.subject, c.code, access, refresh, now)
  }

  function LoadRefresh(s: State, token: string, now: real): (State, Option<Token>) {
    var r := Step(s.db, GetRefresh(token), now);
    (s.(db := r.0), r.1.token)
  }

  /** Rotation: the presented refresh token goes before the new pair is issued. */
  function ExchangeRefresh(cfg: Config, s: State, client: Client, t: Token, scopes: seq<string>,
                           access: string, refresh: string, now: real): State {
    var spent := s.(db := Step(s.db, DeleteRefresh(t.token), now).0, history := Then(s.history, Spent(t.token)));
    Issue(cfg, spent, client, ScopesOr(scopes, t.scopes), t.subject, t.token, access, refresh, now)
  }

  /** A bearer is either the static token or one from the store. */
  function LoadAccess(cfg: Config, s: State, token: string, now: real): (State, Option<Token>) {
    if cfg.staticToken != "" && token == cfg.staticToken then
      (s, Some(Token(token, STATIC_CLIENT_ID, cfg.scopes, None, Some(SUBJECT))))
    else
      var r := Step(s.db, GetAccess(token), now);
      (s.(db := r.0), r.1.token)
  }

  function RevokeToken(s: State, name: string, now: real): State {
    var db := Step(s.db, DeleteAccess(name), now).0;
    s.(db := Step(db, DeleteRefresh(name), now).0, history := Then(s.history, Spent(name)))
  }

  /** The login POST: the request must be pending, then the passphrase must be set and
      match, and only then is the code minted. The two calls read the clock apart. */
  function LoginPost(cfg: Config, s: State, rid: string, supplied: string, code: string, now: real, later: real): (State, LoginResult) {
    var looked := LookupPending(s, rid, now);
    if looked.1.None? then (looked.0, Expired)
    else if cfg.passphrase == "" || supplied != cfg.passphrase then (looked.0, WrongPassphrase)
    else
      var r := Completed(cfg, looked.0, rid, code, later);
      (r.0, if r.1.None? then Expired else Redirected(r.1.value))
  }

  // -- the provider object -----------------------------------------------------

  class Provider {
    const store: Store
    const cfg: Config
    var pending: map<string, Pending>
    ghost var history: History

    ghost function View(): State
      reads this, store
    {
      State(store.Db(), pending, history)
    }

    constructor (store: Store, cfg: Config)
      ensures this.store == store && this.cfg == cfg
      ensures View() == State(store.Db(), map[], Begun)
    {
      this.store, this.cfg, pending, history := store, cfg, map[], Begun;
    }

    /** `_prune_pending`: list the overdue requests, then drop them one by one. */
    method PrunePending(now: real)
      modifies this`pending
      ensures pending == StillPending(old(pending), now)
    {
      var overdue := set rid | rid in pending && Overdue(pending[rid], now);
      while overdue != {}
        invariant overdue <= pending.Keys <= old(pending).Keys
        invariant forall rid | rid in pending :: pending[rid] == old(pending)[rid]
        invariant forall rid | rid in old(pending) ::
          if rid in pending then rid in overdue <==> Overdue(old(pending)[rid], now)
          else Overdue(old(pending)[rid], now)
        decreases |overdue|
      {
        var rid :| rid in overdue;
        pending := pending - {rid};
        overdue := overdue - {rid};
      }
    }

    method Authorize(client: Client, params: Params, rid: string, now: real)
      modifies this
      ensures View() == Authorized(old(View()), client, params, rid, now)
    {
      PrunePending(now);
      pending := pending[rid := Pending(client, params, now)];
      history := Then(history, Parked(rid));
    }

    method PendingClient(rid: string, now: real) returns (r: Option<Client>)
      modifies this`pending
      ensures (View(), r) == LookupPending(old(View()), rid, now)
    {
      PrunePending(now);
      r := if rid in pending then Some(pending[rid].client) else None;
    }

    method CompleteAuthorization(rid: string, code: string, now: real) returns (r: Option<Redirect>)
      modifies this, store
      ensures (View(), r) == Completed(cfg, old(View()), rid, code, now)
    {
      PrunePending(now);
      if rid !in pending {
        return None;
      }
      var p := pending[rid];
      pending := pending - {rid};
      var minted := MintCode(cfg, p, code, now);
      store.PutAuthCode(minted, now);
      history := Then(history, Approved(rid, p.client.clientId, minted.scopes, code));
      return Some(Redirect(p.params.redirectUri, code, p.params.state));
    }

    method LoadAuthorizationCode(code: string, now: real) returns (r: Option<AuthCode>)
      modifies this`history, store
      ensures (View(), r) == LoadCode(old(View()), code, now)
    {
      history := if code in store.codes then Then(history, Spent(code)) else history;
      r := store.TakeAuthCode(code, now);
    }

    method IssueTokens(client: Client, scopes: seq<string>, subject: Option<string>,
                       ghost parent: string, access: string, refresh: string, now: real)
      modifies this`history, store
      ensures View() == Issue(cfg, old(View()), client, scopes, subject, parent, access, refresh, now)
    {
      store.PutAccessToken(NewToken(access, client, scopes, cfg.accessTtl, subject, now), now);
      store.PutRefreshToken(NewToken(refresh, client, scopes, cfg.refreshTtl, subject, now), now);
      history := Then(history, Issued(parent, scopes, access, refresh));
    }

    method ExchangeAuthorizationCode(client: Client, c: AuthCode, access: string, refresh: string, now: real)
      modifies this`history, store
      ensures View() == ExchangeCode(cfg, old(View()), client, c, access, refresh, now)
    {
      IssueTokens(client, c.scopes, c.subject, c.code, access, refresh, now);
    }

    method LoadRefreshToken(token: string, now: real) returns (r: Option<Token>)
      modifies store
      ensures (View(), r) == LoadRefresh(old(View()), token, now)
    {
      r := store.GetRefreshToken(token, now);
    }

    method ExchangeRefreshToken(client: Client, t: Token, scopes: seq<string>, access: string, refresh: string, now: real)
      modifies this`history, store
      ensures View() == ExchangeRefresh(cfg, old(View()), client, t, scopes, access, refresh, now)
    {
      store.DeleteRefreshToken(t.token, now);
      history := Then(history, Spent(t.token));
      IssueTokens(client, ScopesOr(scopes, t.scopes), t.subject, t.token, access, refresh, now);
    }

    method LoadAccessToken(token: string, now: real) returns (r: Option<Token>)
      modifies store
      ensures (View(), r) == LoadAccess(cfg, old(View()), token, now)
    {
      if cfg.staticToken != "" && token == cfg.staticToken {
        return Some(Token(token, STATIC_CLIENT_ID, cfg.scopes, None, Some(SUBJECT)));
      }
      r := store.GetAccessToken(token, now);
    }

    method Revoke(name: string, now: real)
      modifies this`history, store
      ensures View() == RevokeToken(old(View()), name, now)
    {
      store.DeleteAccessToken(name, now);
      store.DeleteRefreshToken(name, now);
      history := Then(history, Spent(name));
    }

    /** The POST branch of the login handler. */
    method Login(rid: string, supplied: string, code: string, now: real, later: real) returns (r: LoginResult)
      modifies this, store
      ensures (View(), r) == LoginPost(cfg, old(View()), rid, supplied, code, now, later)
    {
      var client := PendingClient(rid, now);
      if client.None? {
        return Expired;
      }
      if cfg.passphrase == "" || supplied != cfg.passphrase {
        return WrongPassphrase;
      }
      var redirect := CompleteAuthorization(rid, code, later);
      return if redirect.None? then Expired else Redirected(redirect.value);
    }
  }
}
