/** What an approval is good for, and for how long: from the parked request through the
    login and the code to the tokens, along any run in between. */
module OAuthUse {
  import opened Text
  import opened OAuthStore
  import opened OAuthRows
  import opened OAuthProvider
  import opened OAuthRuns
  import opened OAuthLaws

  /** What the server holds for somebody. */
  datatype Thing =
    | ARequest(rid: string, parked: Pending)
    | ACode(minted: AuthCode)
    | AnAccess(token: Token)
    | ARefresh(token: Token)

  function NameOf(x: Thing): string {
    match x
    case ARequest(rid, _) => rid
    case ACode(c) => c.code
    case AnAccess(t) => t.token
    case ARefresh(t) => t.token
  }

  /** From time `at` on: stored as it was made, or out of date. */
  predicate Kept(s: State, x: Thing, at: real) {
    match x
    case ARequest(rid, p) =>
      if rid in s.pending then s.pending[rid] == p else p.createdAt + 600.0 < at
    case ACode(c) =>
      if c.code in s.db.codes then s.db.codes[c.code] == c else c.expiresAt < at
    case AnAccess(t) => KeptToken(s.db.access, t, at)
    case ARefresh(t) => KeptToken(s.db.refresh, t, at)
  }

  predicate KeptToken(m: map<string, Token>, t: Token, at: real) {
    if t.token in m then m[t.token] == t else t.expiresAt.Some? && t.expiresAt.value as real < at
  }

  /** What uses a thing up: the login that approves the request; any client's try to redeem
      the code; the token's own client revoking it, or rotating a refresh token. */
  predicate Ends(cfg: Config, s: State, e: Event, now: real, x: Thing) {
    match x
    case ARequest(rid, _) =>
      var r := Apply(cfg, s, e, now).1;
      e.LoginPost? && e.rid == rid && r.Login? && r.result.Redirected?
    case ACode(c) => e.CodeGrant? && e.code == c.code
    case AnAccess(t) => e.Revoke? && e.token == t.token && e.client.clientId == t.clientId
    case ARefresh(t) => (e.Revoke? || e.RefreshGrant?) && e.token == t.token && e.client.clientId == t.clientId
  }

  predicate Spared(cfg: Config, s: State, es: seq<Timed>, x: Thing)
    decreases |es|
  {
    es == [] || (!Ends(cfg, s, es[0].event, es[0].now, x)
                 && Spared(cfg, Apply(cfg, s, es[0].event, es[0].now).0, es[1..], x))
  }

  /** When an event is over; a login POST reads the clock a second time. */
  function Over(t: Timed): real { if t.event.LoginPost? then t.event.later else t.now }

  /** The clock never goes back. */
  predicate InOrder(from: real, es: seq<Timed>, to: real)
    decreases |es|
  {
    if es == [] then from <= to else from <= es[0].now <= Over(es[0]) && InOrder(Over(es[0]), es[1..], to)
  }

  // -- one event ---------------------------------------------------------------

  lemma {:induction false} RequestStays(cfg: Config, s: State, e: Event, x: Thing, from: real, now: real)
    requires x.ARequest? && Fresh(cfg, s, e) && x.rid in Names(s.history)
    requires Kept(s, x, from) && !Ends(cfg, s, e, now, x) && from <= now <= Over(Timed(e, now))
    ensures Kept(Apply(cfg, s, e, now).0, x, Over(Timed(e, now)))
  {
    hide Names, GrantCode, GrantRefresh, RevokeOwn, MintCode;
    match e
    case CodeGrant(_, _, _, _, _) => SamePending(cfg, s, e, now);
    case RefreshGrant(_, _, _, _, _) => SamePending(cfg, s, e, now);
    case Revoke(_, _) => SamePending(cfg, s, e, now);
    case _ =>
  }

  lemma {:induction false} SamePending(cfg: Config, s: State, e: Event, now: real)
    requires e.CodeGrant? || e.RefreshGrant? || e.Revoke?
    ensures Apply(cfg, s, e, now).0.pending == s.pending
  {
  }

  lemma {:induction false} SameCodes(cfg: Config, s: State, e: Event, now: real)
    requires !e.LoginPost? && !e.CodeGrant? && !e.Maintain?
    ensures Apply(cfg, s, e, now).0.db.codes == s.db.codes
  {
    hide StillPending, NewToken, LoadAccess, LoadRefresh, Subset;
    var name := if e.RefreshGrant? || e.Present? || e.Revoke? then e.token else "";
    LoadsLeaveCodes(cfg, s, name, now);
    LoadsLeaveCodes(cfg, LoadAccess(cfg, s, name, now).0, name, now);
  }

  lemma {:induction false} LoadsLeaveCodes(cfg: Config, s: State, name: string, now: real)
    ensures LoadAccess(cfg, s, name, now).0.db.codes == s.db.codes && LoadRefresh(s, name, now).0.db.codes == s.db.codes
  {
  }

  lemma {:induction false} CodeStays(cfg: Config, s: State, e: Event, x: Thing, from: real, now: real)
    requires x.ACode? && Fresh(cfg, s, e) && x.minted.code in Names(s.history)
    requires Kept(s, x, from) && !Ends(cfg, s, e, now, x) && from <= now <= Over(Timed(e, now))
    ensures Kept(Apply(cfg, s, e, now).0, x, Over(Timed(e, now)))
  {
    hide Names, StillPending, Authorized, RevokeOwn, GrantRefresh, NewToken;
    if !e.LoginPost? && !e.CodeGrant? && !e.Maintain? {
      SameCodes(cfg, s, e, now);
    }
  }

  function Ticket(t: Token, refresh: bool): Thing { if refresh then ARefresh(t) else AnAccess(t) }

  function TableOf(s: State, refresh: bool): map<string, Token> { if refresh then s.db.refresh else s.db.access }

  /** A row that goes has expired, and none comes or changes. */
  predicate RowStays(m: map<string, Token>, n: map<string, Token>, k: string, now: real) {
    if k in n then k in m && n[k] == m[k]
    else k in m ==> m[k].expiresAt.Some? && m[k].expiresAt.value as real < now
  }

  lemma {:induction false} TokenStays(cfg: Config, s: State, e: Event, t: Token, refresh: bool, from: real, now: real)
    requires Inv(cfg, s) && Fresh(cfg, s, e)
    requires t.token in Names(s.history) && t.token != cfg.staticToken
    requires Kept(s, Ticket(t, refresh), from) && !Ends(cfg, s, e, now, Ticket(t, refresh)) && from <= now <= Over(Timed(e, now))
    ensures Kept(Apply(cfg, s, e, now).0, Ticket(t, refresh), Over(Timed(e, now)))
  {
    hide Names, Inv, Apply;
    match e {
      case CodeGrant(_, _, _, _, _) => CodeGrantRow(cfg, s, e, t.token, refresh, now);
      case RefreshGrant(_, _, _, _, _) => RefreshGrantRow(cfg, s, e, t, refresh, from, now);
      case Revoke(_, _) => RevokeRow(cfg, s, e, t, refresh, from, now);
      case _ => QuietRow(cfg, s, e, t.token, refresh, now);
    }
    assert RowStays(TableOf(s, refresh), TableOf(Apply(cfg, s, e, now).0, refresh), t.token, now);
  }

  lemma {:induction false} QuietRow(cfg: Config, s: State, e: Event, k: string, refresh: bool, now: real)
    requires !e.CodeGrant? && !e.RefreshGrant? && !e.Revoke?
    ensures RowStays(TableOf(s, refresh), TableOf(Apply(cfg, s, e, now).0, refresh), k, now)
  {
  }

  lemma {:induction false} CodeGrantRow(cfg: Config, s: State, e: Event, k: string, refresh: bool, now: real)
    requires e.CodeGrant? && Fresh(cfg, s, e) && k in Names(s.history)
    ensures RowStays(TableOf(s, refresh), TableOf(Apply(cfg, s, e, now).0, refresh), k, now)
  {
    hide Names;
  }

  lemma {:induction false} RefreshGrantRow(cfg: Config, s: State, e: Event, t: Token, refresh: bool, from: real, now: real)
    requires e.RefreshGrant? && Fresh(cfg, s, e) && t.token in Names(s.history) && from <= now
    requires Kept(s, Ticket(t, refresh), from) && !Ends(cfg, s, e, now, Ticket(t, refresh))
    requires Inv(cfg, s)
    ensures RowStays(TableOf(s, refresh), TableOf(Apply(cfg, s, e, now).0, refresh), t.token, now)
  {
    hide Names, Rooted, Orderly, CodesRooted, OnePerApproval, PendingOpen;
  }

  /** The two loads of a revocation remove a row only if it has expired. */
  lemma {:induction false} RevokeLoads(cfg: Config, s: State, k: string, refresh: bool, name: string, now: real)
    ensures var a := LoadAccess(cfg, s, name, now);
            && RowStays(TableOf(s, refresh), TableOf(a.0, refresh), k, now)
            && RowStays(TableOf(s, refresh), TableOf(LoadRefresh(a.0, name, now).0, refresh), k, now)
  {
  }

  /** A revocation names the token it loads, and loads a stored one of that name. */
  lemma {:induction false} RevokeFinds(cfg: Config, s: State, name: string, now: real)
    requires TokensRooted(s.history, s.db.access) && TokensRooted(s.history, s.db.refresh)
    ensures var a := LoadAccess(cfg, s, name, now);
            && (a.1.Some? ==> a.1.value.token == name && (name == cfg.staticToken || (name in s.db.access && a.1.value == s.db.access[name])))
            && var r := LoadRefresh(a.0, name, now);
               r.1.Some? ==> r.1.value.token == name && name in s.db.refresh && r.1.value == s.db.refresh[name]
  {
    hide Rooted;
  }

  lemma {:induction false} RevokeRow(cfg: Config, s: State, e: Event, t: Token, refresh: bool, from: real, now: real)
    requires Inv(cfg, s) && e.Revoke? && t.token != cfg.staticToken && from <= now
    requires Kept(s, Ticket(t, refresh), from) && !Ends(cfg, s, e, now, Ticket(t, refresh))
    ensures RowStays(TableOf(s, refresh), TableOf(Apply(cfg, s, e, now).0, refresh), t.token, now)
  {
    hide Orderly, TokensRooted, CodesRooted, OnePerApproval, PendingOpen, LoadAccess, LoadRefresh;
    RevokeLoads(cfg, s, t.token, refresh, e.token, now);
    RevokeFinds(cfg, s, e.token, now);
  }

  /** Along a run that does not use it up, a thing stays as it was made until its time. */
  lemma {:induction false} KeptRun(cfg: Config, s: State, es: seq<Timed>, x: Thing, from: real, to: real)
    requires Inv(cfg, s) && FreshRun(cfg, s, es) && InOrder(from, es, to) && Spared(cfg, s, es, x)
    requires NameOf(x) in Names(s.history) && (x.ARequest? || NameOf(x) != cfg.staticToken) && Kept(s, x, from)
    ensures Kept(Run(cfg, s, es), x, to)
    decreases |es|
  {
    hide Inv, Fresh, Apply, Names, Ends;
    if es == [] {
      KeptLater(s, x, from, to);
    } else {
      var e, now := es[0].event, es[0].now;
      var t := Apply(cfg, s, e, now).0;
      match x {
        case ARequest(_, _) => RequestStays(cfg, s, e, x, from, now);
        case ACode(_) => CodeStays(cfg, s, e, x, from, now);
        case AnAccess(t) => TokenStays(cfg, s, e, t, false, from, now);
        case ARefresh(t) => TokenStays(cfg, s, e, t, true, from, now);
      }
      ApplyKeeps(cfg, s, e, now);
      ApplyApproves(cfg, s, e, now);
      NamesGrow(s.history, t.history);
      KeptRun(cfg, t, es[1..], x, Over(es[0]), to);
    }
  }

  lemma {:induction false} KeptLater(s: State, x: Thing, from: real, to: real)
    requires Kept(s, x, from) && from <= to
    ensures Kept(s, x, to)
  {
  }

  // -- what the routes answer --------------------------------------------------

  /** The whole number that Python's `int` makes of a time: towards zero. */
  predicate Whole(n: int, x: real) {
    if x >= 0.0 then n as real <= x < (n + 1) as real else (n - 1) as real < x <= n as real
  }

  lemma {:induction false} TruncIsWhole(x: real)
    ensures Whole(Trunc(x), x)
  {
  }

  /** The answer to a login POST for a request as it was parked; with a redirect, the code
      carries the request, the scopes it asked for or else the server's, and 300 seconds. */
  lemma {:induction false} LoginAnswers(cfg: Config, s: State, rid: string, p: Pending, from: real,
                                        supplied: string, code: string, now: real, later: real)
    requires Kept(s, ARequest(rid, p), from) && from <= now <= later
    ensures Apply(cfg, s, LoginGet(rid), now).1 == Page(now <= p.createdAt + 600.0)
    ensures var r := Apply(cfg, s, Event.LoginPost(rid, supplied, code, later), now);
            && r.1 == Login(if now > p.createdAt + 600.0 then Expired
                            else if cfg.passphrase == "" || supplied != cfg.passphrase then WrongPassphrase
                            else if later > p.createdAt + 600.0 then Expired
                            else Redirected(Redirect(p.params.redirectUri, code, p.params.state)))
            && (r.1.result.Redirected? ==>
                  code in r.0.db.codes && code in Names(r.0.history) && r.0.db.codes[code] == CodeFor(cfg, p, code, later + 300.0))
  {
    hide ApprovedRids;
  }

  function CodeFor(cfg: Config, p: Pending, code: string, expiresAt: real): AuthCode {
    AuthCode(
      code := code,
      clientId := p.client.clientId,
      scopes := if p.params.scopes.Some? && p.params.scopes.value != [] then p.params.scopes.value else cfg.scopes,
      codeChallenge := p.params.codeChallenge,
      redirectUri := p.params.redirectUri,
      explicitUri := p.params.explicitUri,
      resource := p.params.resource,
      subject := Some("owner"),
      expiresAt := expiresAt)
  }

  /** By `now` the server has parked a request and served a run that did not approve it. */
  predicate Awaiting(cfg: Config, s: State, a: Event, parked: real, es: seq<Timed>, now: real)
    requires a.Authorize?
  {
    && Inv(cfg, s) && Fresh(cfg, s, a)
    && var t := Apply(cfg, s, a, parked).0;
       FreshRun(cfg, t, es) && InOrder(parked, es, now) && Spared(cfg, t, es, ARequest(a.rid, Pending(a.client, a.params, parked)))
  }

  function After(cfg: Config, s: State, e: Event, at: real, es: seq<Timed>): State { Run(cfg, Apply(cfg, s, e, at).0, es) }

  lemma {:induction false} AwaitingKept(cfg: Config, s: State, a: Event, parked: real, es: seq<Timed>, now: real)
    requires a.Authorize? && Awaiting(cfg, s, a, parked, es, now)
    ensures Kept(After(cfg, s, a, parked, es), ARequest(a.rid, Pending(a.client, a.params, parked)), now)
    ensures Inv(cfg, After(cfg, s, a, parked, es))
  {
    hide Inv, FreshRun, Spared, InOrder, Run, Names;
    ApplyKeeps(cfg, s, a, parked);
    OneMore(s.history, Parked(a.rid));
    KeptRun(cfg, Apply(cfg, s, a, parked).0, es, ARequest(a.rid, Pending(a.client, a.params, parked)), parked, now);
    RunKeeps(cfg, Apply(cfg, s, a, parked).0, es);
  }

  /** An authorization request can be approved for 600 seconds, whatever else the server is
      asked meanwhile, wrong passphrases for the same request among it. The redirect goes
      to the request's own URI with its own state. */
  lemma {:induction false} RequestApprovable(cfg: Config, s: State, a: Event, parked: real, es: seq<Timed>, l: Event, now: real)
    requires a.Authorize? && Awaiting(cfg, s, a, parked, es, now) && l.LoginPost? && l.rid == a.rid && now <= l.later
    ensures Apply(cfg, After(cfg, s, a, parked, es), LoginGet(a.rid), now).1 == Page(now <= parked + 600.0)
    ensures Apply(cfg, After(cfg, s, a, parked, es), l, now).1
            == Login(if now > parked + 600.0 then Expired
                     else if cfg.passphrase == "" || l.supplied != cfg.passphrase then WrongPassphrase
                     else if l.later > parked + 600.0 then Expired
                     else Redirected(Redirect(a.params.redirectUri, l.code, a.params.state)))
  {
    hide Awaiting, After, Kept, Apply;
    AwaitingKept(cfg, s, a, parked, es, now);
    LoginAnswers(cfg, After(cfg, s, a, parked, es), a.rid, Pending(a.client, a.params, parked), now, l.supplied, l.code, now, l.later);
  }

  /** After a login answered with a redirect, the code can be redeemed for 300 seconds: for
      the request's client, with its challenge, URI and resource, and the scopes it asked
      for or else the server's, unless somebody tried to redeem it before. */
  lemma {:induction false} ApprovedCodeUsable(cfg: Config, s: State, a: Event, parked: real, es: seq<Timed>, l: Event, now: real,
                                              more: seq<Timed>, redeemed: real)
    requires a.Authorize? && Awaiting(cfg, s, a, parked, es, now) && l.LoginPost? && l.rid == a.rid && now <= l.later
    requires var t := After(cfg, s, a, parked, es);
             var r := Apply(cfg, t, l, now);
             && r.1.Login? && r.1.result.Redirected? && Fresh(cfg, t, l) && FreshRun(cfg, r.0, more)
             && InOrder(l.later, more, redeemed)
             && forall i | 0 <= i < |more| && more[i].event.CodeGrant? :: more[i].event.code != l.code
    ensures var t := After(cfg, s, a, parked, es);
            var r := Apply(cfg, t, l, now);
            LoadCode(Run(cfg, r.0, more), r.1.result.redirect.code, redeemed).1
            == if redeemed > l.later + 300.0 then None
               else Some(AuthCode(
                 code := l.code,
                 clientId := a.client.clientId,
                 scopes := if a.params.scopes.Some? && a.params.scopes.value != [] then a.params.scopes.value else cfg.scopes,
                 codeChallenge := a.params.codeChallenge,
                 redirectUri := a.params.redirectUri,
                 explicitUri := a.params.explicitUri,
                 resource := a.params.resource,
                 subject := Some("owner"),
                 expiresAt := l.later + 300.0))
  {
    hide Awaiting, After, Kept, Apply, Inv, Fresh, FreshRun, InOrder, Run, LoadCode, Names;
    var t, p := After(cfg, s, a, parked, es), Pending(a.client, a.params, parked);
    var r := Apply(cfg, t, l, now);
    var c := CodeFor(cfg, p, l.code, l.later + 300.0);
    AwaitingKept(cfg, s, a, parked, es, now);
    LoginAnswers(cfg, t, a.rid, p, now, l.supplied, l.code, now, l.later);
    RedirectKeeps(cfg, t, l, now, c);
    NeverTried(cfg, r.0, more, c);
    KeptRun(cfg, r.0, more, ACode(c), l.later, redeemed);
    KeptLoads(cfg, Run(cfg, r.0, more), c, redeemed);
  }

  lemma {:induction false} RedirectKeeps(cfg: Config, t: State, l: Event, now: real, c: AuthCode)
    requires Inv(cfg, t) && Fresh(cfg, t, l) && l.LoginPost? && c.code == l.code
    requires c.code in Apply(cfg, t, l, now).0.db.codes && Apply(cfg, t, l, now).0.db.codes[c.code] == c
    ensures var u := Apply(cfg, t, l, now).0; Inv(cfg, u) && Kept(u, ACode(c), l.later) && c.code != cfg.staticToken
  {
    hide Inv, Names, Apply;
    ApplyKeeps(cfg, t, l, now);
  }

  lemma {:induction false} NeverTried(cfg: Config, s: State, es: seq<Timed>, c: AuthCode)
    requires forall i | 0 <= i < |es| && es[i].event.CodeGrant? :: es[i].event.code != c.code
    ensures Spared(cfg, s, es, ACode(c))
    decreases |es|
  {
    hide Apply;
    if es != [] {
      assert es[0].event.CodeGrant? ==> es[0].event.code != c.code;
      assert forall i | 0 <= i < |es[1..]| :: es[1..][i] == es[i + 1];
      NeverTried(cfg, Apply(cfg, s, es[0].event, es[0].now).0, es[1..], c);
    }
  }

  lemma {:induction false} KeptLoads(cfg: Config, s: State, c: AuthCode, now: real)
    requires Kept(s, ACode(c), now)
    ensures LoadCode(s, c.code, now).1 == if now > c.expiresAt then None else Some(c)
  {
  }

  // -- what a grant is worth ---------------------------------------------------

  /** A row for a token that lives until the whole second of `expiry`. */
  predicate Row(m: map<string, Token>, name: string, clientId: string, scopes: seq<string>, subject: Option<string>, expiry: real) {
    && name in m
    && m[name].token == name && m[name].clientId == clientId && m[name].scopes == scopes && m[name].subject == subject
    && m[name].expiresAt.Some? && Whole(m[name].expiresAt.value, expiry)
  }

  predicate PairStored(cfg: Config, s: State, e: Event, scopes: seq<string>, subject: Option<string>, now: real)
    requires e.CodeGrant? || e.RefreshGrant?
  {
    && Row(s.db.access, e.access, e.client.clientId, scopes, subject, now + cfg.accessTtl as real)
    && Row(s.db.refresh, e.refresh, e.client.clientId, scopes, subject, now + cfg.refreshTtl as real)
  }

  lemma {:induction false} IssueStores(cfg: Config, s: State, e: Event, scopes: seq<string>, subject: Option<string>, parent: string, now: real)
    requires e.CodeGrant? || e.RefreshGrant?
    ensures PairStored(cfg, Issue(cfg, s, e.client, scopes, subject, parent, e.access, e.refresh, now), e, scopes, subject, now)
  {
    hide Trunc, Whole;
    TruncIsWhole(now + cfg.accessTtl as real);
    TruncIsWhole(now + cfg.refreshTtl as real);
  }

  /** The token endpoint grants on a code until it expires, to the code's own client, and
      what it grants is an access and a refresh token with the code's scopes and subject,
      each with its own lifetime. */
  lemma {:induction false} CodeGrantAnswers(cfg: Config, s: State, e: Event, c: AuthCode, from: real, now: real)
    requires e.CodeGrant? && e.code == c.code && Kept(s, ACode(c), from) && from <= now
    ensures var r := Apply(cfg, s, e, now);
            && r.1 == (if now <= c.expiresAt && e.client.clientId == c.clientId && e.sdkOk
                       then Granted(c.code, c.scopes, e.access, e.refresh) else Refused)
            && (r.1.Granted? ==> PairStored(cfg, r.0, e, c.scopes, c.subject, now))
  {
    hide Issue, PairStored;
    KeptLoads(cfg, s, c, now);
    IssueStores(cfg, LoadCode(s, c.code, now).0, e, c.scopes, c.subject, c.code, now);
  }

  /** A refresh token is exchanged until it expires, by its own client, for scopes it has;
      the new pair carries exactly the scopes asked for, or else all the token's. */
  lemma {:induction false} RefreshGrantAnswers(cfg: Config, s: State, e: Event, t: Token, from: real, now: real)
    requires e.RefreshGrant? && e.token == t.token && Kept(s, ARefresh(t), from) && from <= now
    ensures var r := Apply(cfg, s, e, now);
            var scopes := if e.requested == [] then t.scopes else e.requested;
            && r.1 == (if (t.expiresAt.Some? ==> now <= t.expiresAt.value as real) && e.client.clientId == t.clientId
                          && forall x | x in e.requested :: x in t.scopes
                       then Granted(t.token, scopes, e.access, e.refresh) else Refused)
            && (r.1.Granted? ==> PairStored(cfg, r.0, e, scopes, t.subject, now))
  {
    hide Issue, PairStored;
    var scopes := if e.requested == [] then t.scopes else e.requested;
    var spent := s.(db := s.db.(refresh := s.db.refresh - {t.token}), history := Then(s.history, Spent(t.token)));
    IssueStores(cfg, spent, e, scopes, t.subject, t.token, now);
  }

  function UntilExpiry(t: Token, now: real): Option<Token> {
    if t.expiresAt.Some? && t.expiresAt.value as real < now then None else Some(t)
  }

  lemma {:induction false} KeptPresents(cfg: Config, s: State, t: Token, now: real)
    requires t.token != cfg.staticToken
    ensures Kept(s, AnAccess(t), now) ==> Apply(cfg, s, Present(t.token), now).1 == Bearer(UntilExpiry(t, now))
    ensures Kept(s, ARefresh(t), now) ==> LoadRefresh(s, t.token, now).1 == UntilExpiry(t, now)
  {
  }

  /** What a grant hands out works until it expires, whatever else the server is asked:
      the bearer is accepted unless its own client revoked it, and the refresh token is
      found unless its own client revoked or rotated it. */
  lemma {:induction false} GrantedTokensUsable(cfg: Config, s: State, e: Event, granted: real, es: seq<Timed>, now: real)
    requires Inv(cfg, s) && Fresh(cfg, s, e) && (e.CodeGrant? || e.RefreshGrant?)
    requires var r := Apply(cfg, s, e, granted);
             r.1.Granted? && FreshRun(cfg, r.0, es) && InOrder(granted, es, now)
    ensures var r := Apply(cfg, s, e, granted);
            var t := Run(cfg, r.0, es);
            && e.access in r.0.db.access && e.refresh in r.0.db.refresh
            && var a, b := r.0.db.access[e.access], r.0.db.refresh[e.refresh];
               && PairStored(cfg, r.0, e, r.1.scopes, a.subject, granted)
               && (Spared(cfg, r.0, es, AnAccess(a)) ==> Apply(cfg, t, Present(e.access), now).1 == Bearer(UntilExpiry(a, now)))
               && (Spared(cfg, r.0, es, ARefresh(b)) ==> LoadRefresh(t, e.refresh, now).1 == UntilExpiry(b, now))
  {
    hide Inv, Fresh, FreshRun, Spared, InOrder, Run, Names, Apply, Row, Kept, UntilExpiry;
    var r := Apply(cfg, s, e, granted);
    var t := Run(cfg, r.0, es);
    GrantStores(cfg, s, e, granted);
    var a, b := r.0.db.access[e.access], r.0.db.refresh[e.refresh];
    ApplyKeeps(cfg, s, e, granted);
    if Spared(cfg, r.0, es, AnAccess(a)) {
      KeptRun(cfg, r.0, es, AnAccess(a), granted, now);
    }
    if Spared(cfg, r.0, es, ARefresh(b)) {
      KeptRun(cfg, r.0, es, ARefresh(b), granted, now);
    }
    KeptPresents(cfg, t, a, now);
    KeptPresents(cfg, t, b, now);
  }

  lemma {:induction false} GrantStores(cfg: Config, s: State, e: Event, granted: real)
    requires Inv(cfg, s) && Fresh(cfg, s, e) && (e.CodeGrant? || e.RefreshGrant?) && Apply(cfg, s, e, granted).1.Granted?
    ensures var r := Apply(cfg, s, e, granted);
            && e.access in r.0.db.access && e.refresh in r.0.db.refresh
            && var a, b := r.0.db.access[e.access], r.0.db.refresh[e.refresh];
               && a.token == e.access && b.token == e.refresh
               && e.access in Names(r.0.history) && e.refresh in Names(r.0.history)
               && e.access != cfg.staticToken && e.refresh != cfg.staticToken
               && PairStored(cfg, r.0, e, r.1.scopes, a.subject, granted)
               && Kept(r.0, AnAccess(a), granted) && Kept(r.0, ARefresh(b), granted)
  {
    hide Orderly, Origin, ScopesOf, ApprovedRids, OnePerApproval, PendingOpen, Rooted;
    if e.CodeGrant? {
      CodeGrantAnswers(cfg, s, e, s.db.codes[e.code], granted, granted);
    } else {
      RefreshGrantAnswers(cfg, s, e, s.db.refresh[e.token], granted, granted);
    }
  }

  // -- what needs no grant -----------------------------------------------------

  /** The static token, if one is set, is accepted at any time and in any state, as a grant of
      all the server's scopes that never expires; no other string is taken for it. */
  lemma {:induction false} StaticBearer(cfg: Config, s: State, k: string, now: real)
    ensures cfg.staticToken != "" ==>
              Apply(cfg, s, Present(cfg.staticToken), now)
              == (s, Bearer(Some(Token(cfg.staticToken, "static-token", cfg.scopes, None, Some("owner")))))
    ensures k !in s.db.access && (cfg.staticToken == "" || k != cfg.staticToken) ==>
              Apply(cfg, s, Present(k), now) == (s, Bearer(None))
  {
  }

  /** A round of maintenance leaves exactly the codes and tokens that have not expired. */
  lemma {:induction false} MaintainSweeps(cfg: Config, s: State, now: real)
    ensures var t := Apply(cfg, s, Maintain, now).0;
            && t.pending == s.pending && t.history == s.history && t.db.clients == s.db.clients
            && LiveCodesOf(s.db.codes, t.db.codes, now)
            && LiveOf(s.db.access, t.db.access, now) && LiveOf(s.db.refresh, t.db.refresh, now)
  {
    hide LiveOf, LiveCodesOf;
    PruneSweeps(s.db, now);
  }

  lemma {:induction false} SameClients(cfg: Config, s: State, e: Event, now: real)
    requires !e.Register?
    ensures Apply(cfg, s, e, now).0.db.clients == s.db.clients
  {
    hide StillPending, MintCode, NewToken, LiveCode, StaleCodes, StaleTokens, LoadAccess, LoadRefresh, Subset;
    var name := if e.RefreshGrant? || e.Present? || e.Revoke? then e.token else "";
    LoadsLeaveClients(cfg, s, name, now);
    LoadsLeaveClients(cfg, LoadAccess(cfg, s, name, now).0, name, now);
  }

  lemma {:induction false} LoadsLeaveClients(cfg: Config, s: State, name: string, now: real)
    ensures LoadAccess(cfg, s, name, now).0.db.clients == s.db.clients && LoadRefresh(s, name, now).0.db.clients == s.db.clients
  {
  }

  /** A client is known as it registered, along any run that does not register its id again. */
  lemma {:induction false} RegisteredKnown(cfg: Config, s: State, c: Client, at: real, es: seq<Timed>, now: real)
    requires forall i | 0 <= i < |es| && es[i].event.Register? :: es[i].event.client.clientId != c.clientId
    ensures OAuthStore.Step(After(cfg, s, Register(c), at, es).db, GetClient(c.clientId), now).1 == SomeClient(Some(c))
  {
    hide Run;
    ClientStays(cfg, Apply(cfg, s, Register(c), at).0, c, es);
  }

  lemma {:induction false} ClientStays(cfg: Config, s: State, c: Client, es: seq<Timed>)
    requires c.clientId in s.db.clients && s.db.clients[c.clientId] == c
    requires forall i | 0 <= i < |es| && es[i].event.Register? :: es[i].event.client.clientId != c.clientId
    ensures var t := Run(cfg, s, es); c.clientId in t.db.clients && t.db.clients[c.clientId] == c
    decreases |es|
  {
    hide Run, GrantCode, GrantRefresh, RevokeOwn;
    if es == [] {
      NoEvents(cfg, s);
    } else {
      var e, now := es[0].event, es[0].now;
      if !e.Register? {
        SameClients(cfg, s, e, now);
      }
      assert forall i | 0 <= i < |es[1..]| :: es[1..][i] == es[i + 1];
      ClientStays(cfg, Apply(cfg, s, e, now).0, c, es[1..]);
      OneEvent(cfg, s, es);
    }
  }

  lemma {:induction false} NoEvents(cfg: Config, s: State)
    ensures Run(cfg, s, []) == s
  {
  }

  lemma {:induction false} OneEvent(cfg: Config, s: State, es: seq<Timed>)
    requires es != []
    ensures Run(cfg, s, es) == Run(cfg, Apply(cfg, s, es[0].event, es[0].now).0, es[1..])
  {
  }
}
