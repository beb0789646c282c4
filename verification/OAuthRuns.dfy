/** Whole runs of the authorization server: the routes around the provider, and what
    holds in every state a run can reach. */
module OAuthRuns {
  import opened Text
  import opened OAuthStore
  import opened OAuthProvider

  // -- the routes --------------------------------------------------------------

  /** One request, or one round of maintenance. Strings a request mints are part of
      it; `sdkOk` stands for the checks on a code that the SDK makes by itself. */
  datatype Event =
    | Register(client: Client)
    | Authorize(client: Client, params: Params, rid: string)
    | LoginGet(rid: string)
    | LoginPost(rid: string, supplied: string, code: string, later: real)
    | CodeGrant(client: Client, code: string, sdkOk: bool, access: string, refresh: string)
    | RefreshGrant(client: Client, token: string, requested: seq<string>, access: string, refresh: string)
    | Present(token: string)
    | Revoke(client: Client, token: string)
    | Maintain

  datatype Reply =
    | Quiet
    | Page(shown: bool)
    | Login(result: LoginResult)
    | Refused
    | Granted(parent: string, scopes: seq<string>, access: string, refresh: string)
    | Bearer(token: Option<Token>)

  predicate Subset(a: seq<string>, b: seq<string>) { forall x | x in a :: x in b }

  /** The token endpoint for a code: load, which consumes it, check, exchange. */
  function GrantCode(cfg: Config, s: State, client: Client, code: string, sdkOk: bool, access: string, refresh: string, now: real): (State, Reply) {
    var r := LoadCode(s, code, now);
    if r.1.None? || r.1.value.clientId != client.clientId || !sdkOk then (r.0, Refused)
    else
      (ExchangeCode(cfg, r.0, client, r.1.value, access, refresh, now), Granted(code, r.1.value.scopes, access, refresh))
  }

  /** The token endpoint for a refresh token: load, check the client and that the
      requested scopes are among the token's, rotate. */
  function GrantRefresh(cfg: Config, s: State, client: Client, token: string, requested: seq<string>, access: string, refresh: string, now: real): (State, Reply) {
    var r := LoadRefresh(s, token, now);
    if r.1.None? || r.1.value.clientId != client.clientId || !Subset(requested, r.1.value.scopes) then (r.0, Refused)
    else
      (ExchangeRefresh(cfg, r.0, client, r.1.value, requested, access, refresh, now),
       Granted(token, ScopesOr(requested, r.1.value.scopes), access, refresh))
  }

  /** The revocation endpoint: find the token as an access or a refresh token, and
      revoke it if it is the client's own. */
  function RevokeOwn(cfg: Config, s: State, client: Client, token: string, now: real): State {
    var a := LoadAccess(cfg, s, token, now);
    var r := if a.1.Some? then a else LoadRefresh(a.0, token, now);
    if r.1.Some? && r.1.value.clientId == client.clientId then RevokeToken(r.0, r.1.value.token, now) else r.0
  }

  function Apply(cfg: Config, s: State, e: Event, now: real): (State, Reply) {
    match e
    case Register(client) => (s.(db := Step(s.db, PutClient(client), now).0), Quiet)
    case Authorize(client, params, rid) => (Authorized(s, client, params, rid, now), Quiet)
    case LoginGet(rid) =>
      var r := LookupPending(s, rid, now);
      (r.0, Page(r.1.Some?))
    case LoginPost(rid, supplied, code, later) =>
      var r := OAuthProvider.LoginPost(cfg, s, rid, supplied, code, now, later);
      (r.0, Login(r.1))
    case CodeGrant(client, code, sdkOk, access, refresh) => GrantCode(cfg, s, client, code, sdkOk, access, refresh, now)
    case RefreshGrant(client, token, requested, access, refresh) => GrantRefresh(cfg, s, client, token, requested, access, refresh, now)
    case Present(token) =>
      var r := LoadAccess(cfg, s, token, now);
      (r.0, Bearer(r.1))
    case Revoke(client, token) => (RevokeOwn(cfg, s, client, token, now), Quiet)
    case Maintain => (s.(db := Step(s.db, Prune, now).0), Quiet)
  }

  // -- reading the history -----------------------------------------------------

  function Mentioned(f: Fact): set<string> {
    match f
    case Parked(rid) => {rid}
    case Approved(rid, _, _, code) => {rid, code}
    case Issued(parent, _, access, refresh) => {parent, access, refresh}
    case Spent(name) => {name}
  }

  predicate Recorded(h: History, f: Fact) {
    h.Then? && (h.fact == f || Recorded(h.earlier, f))
  }

  /** `g` is `h` with later facts. */
  predicate Grew(h: History, g: History)
    decreases g
  {
    g == h || (g.Then? && Grew(h, g.earlier))
  }

  lemma {:induction false} GrewOn(h: History, g: History, k: History)
    requires Grew(h, g) && Grew(g, k)
    ensures Grew(h, k)
    decreases k
  {
    if k != g {
      GrewOn(h, g, k.earlier);
    }
  }

  lemma {:induction false} GrewRecorded(h: History, g: History, f: Fact)
    requires Grew(h, g) && Recorded(h, f)
    ensures Recorded(g, f)
    decreases g
  {
    if g != h {
      GrewRecorded(h, g.earlier, f);
    }
  }

  function Names(h: History): set<string> {
    if h.Begun? then {} else Names(h.earlier) + Mentioned(h.fact)
  }

  function ApprovedRids(h: History): set<string> {
    if h.Begun? then {}
    else ApprovedRids(h.earlier) + (if h.fact.Approved? then {h.fact.rid} else {})
  }

  function Parents(h: History): set<string> {
    if h.Begun? then {}
    else Parents(h.earlier) + (if h.fact.Issued? then {h.fact.parent} else {})
  }

  /** The approved request a code or token descends from, with the client and the
      scopes it was approved for. */
  datatype Grant = Grant(rid: string, clientId: string, scopes: seq<string>)

  function Origin(h: History, n: string): Option<Grant> {
    if h.Begun? then None
    else
      var init, f := h.earlier, h.fact;
      if f.Approved? && f.code == n then Some(Grant(f.rid, f.clientId, f.scopes))
      else if f.Issued? && (f.access == n || f.refresh == n) then Origin(init, f.parent)
      else Origin(init, n)
  }

  /** The scopes a code or token itself carries. */
  function ScopesOf(h: History, n: string): Option<seq<string>> {
    if h.Begun? then None
    else
      var init, f := h.earlier, h.fact;
      if f.Approved? && f.code == n then Some(f.scopes)
      else if f.Issued? && (f.access == n || f.refresh == n) then Some(f.scopes)
      else ScopesOf(init, n)
  }

  /** One more fact makes sense after `h`: what it mints is new; a request is approved
      once; an issue spends its parent first, once, and never widens its scopes. */
  predicate Follows(h: History, f: Fact) {
    match f
    case Parked(rid) => rid !in Names(h)
    case Approved(rid, _, _, code) => code !in Names(h) && rid in Names(h) && rid !in ApprovedRids(h)
    case Issued(parent, scopes, access, refresh) =>
      && access != refresh && access !in Names(h) && refresh !in Names(h)
      && Recorded(h, Spent(parent)) && parent !in Parents(h) && parent in Names(h)
      && Origin(h, parent).Some?
      && ScopesOf(h, parent).Some? && Subset(scopes, ScopesOf(h, parent).value)
    case Spent(_) => true
  }

  predicate Orderly(h: History) {
    h.Begun? || (Orderly(h.earlier) && Follows(h.earlier, h.fact))
  }

  /** Adding a fact, unrolled once. */
  lemma {:induction false} OneMore(h: History, f: Fact)
    ensures Names(Then(h, f)) == Names(h) + Mentioned(f)
    ensures ApprovedRids(Then(h, f)) == ApprovedRids(h) + (if f.Approved? then {f.rid} else {})
    ensures Parents(Then(h, f)) == Parents(h) + (if f.Issued? then {f.parent} else {})
    ensures Orderly(Then(h, f)) <==> Orderly(h) && Follows(h, f)
    ensures forall g :: Grew(g, h) ==> Grew(g, Then(h, f))
    ensures Grew(h, h)
  {
  }

  /** Looking a name up past one more fact. */
  lemma {:induction false} OriginOneMore(h: History, f: Fact, n: string)
    ensures Origin(Then(h, f), n)
         == if f.Approved? && f.code == n then Some(Grant(f.rid, f.clientId, f.scopes))
            else if f.Issued? && (f.access == n || f.refresh == n) then Origin(h, f.parent)
            else Origin(h, n)
    ensures ScopesOf(Then(h, f), n)
         == if f.Approved? && f.code == n then Some(f.scopes)
            else if f.Issued? && (f.access == n || f.refresh == n) then Some(f.scopes)
            else ScopesOf(h, n)
  {
  }

  lemma {:induction false} NamesGrow(h: History, g: History)
    requires Grew(h, g)
    ensures Names(h) <= Names(g)
    decreases g
  {
    if g != h {
      NamesGrow(h, g.earlier);
    }
  }

  lemma {:induction false} OriginNamed(h: History, n: string)
    requires Origin(h, n).Some?
    ensures n in Names(h) && Origin(h, n).value.rid in ApprovedRids(h)
    decreases h
  {
    var init, f := h.earlier, h.fact;
    if f.Approved? && f.code == n {
    } else if f.Issued? && (f.access == n || f.refresh == n) {
      OriginNamed(init, f.parent);
    } else {
      OriginNamed(init, n);
    }
  }

  // -- the invariant -----------------------------------------------------------

  /** What a stored code or token named `k` is: of its approval's client, carrying the
      scopes it was minted with, and not spent. */
  predicate Rooted(h: History, k: string, clientId: string, scopes: seq<string>) {
    && Origin(h, k).Some? && Origin(h, k).value.clientId == clientId
    && ScopesOf(h, k) == Some(scopes)
    && !Recorded(h, Spent(k))
  }

  predicate TokensRooted(h: History, m: map<string, Token>) {
    forall k | k in m :: m[k].token == k && Rooted(h, k, m[k].clientId, m[k].scopes)
  }

  predicate CodesRooted(h: History, m: map<string, AuthCode>) {
    forall k | k in m :: m[k].code == k && Rooted(h, k, m[k].clientId, m[k].scopes)
  }

  predicate PendingOpen(h: History, pending: map<string, Pending>) {
    forall rid | rid in pending :: rid in Names(h) && rid !in ApprovedRids(h)
  }

  /** What may still be exchanged for tokens. */
  function Exchangeable(db: Tables): set<string> { db.codes.Keys + db.refresh.Keys }

  predicate OnePerApproval(h: History, names: set<string>) {
    forall a, b | a in names && b in names && Origin(h, a).Some? && Origin(h, b).Some?
                  && Origin(h, a).value.rid == Origin(h, b).value.rid :: a == b
  }

  predicate Apart(cfg: Config, db: Tables) {
    && (forall k | k in db.codes :: k !in db.access && k !in db.refresh)
    && (forall k | k in db.access :: k !in db.refresh)
    && cfg.staticToken !in db.codes && cfg.staticToken !in db.access && cfg.staticToken !in db.refresh
  }

  predicate Inv(cfg: Config, s: State) {
    && Orderly(s.history)
    && PendingOpen(s.history, s.pending)
    && CodesRooted(s.history, s.db.codes)
    && TokensRooted(s.history, s.db.access)
    && TokensRooted(s.history, s.db.refresh)
    && Apart(cfg, s.db)
    && OnePerApproval(s.history, Exchangeable(s.db))
  }

  /** A new service: no rows, nothing parked, nothing minted. */
  const INITIAL := State(NO_TABLES, map[], Begun)

  /** Tables and parked requests only shrank. */
  predicate Shrunk(s: State, t: State) {
    && t.history == s.history
    && (forall k | k in t.pending :: k in s.pending)
    && (forall k | k in t.db.codes :: k in s.db.codes && t.db.codes[k] == s.db.codes[k])
    && (forall k | k in t.db.access :: k in s.db.access && t.db.access[k] == s.db.access[k])
    && (forall k | k in t.db.refresh :: k in s.db.refresh && t.db.refresh[k] == s.db.refresh[k])
  }

  /** Expiry, lazy deletion, maintenance and overdue requests break nothing. */
  lemma {:induction false} ShrinkKeeps(cfg: Config, s: State, t: State)
    requires Inv(cfg, s) && Shrunk(s, t)
    ensures Inv(cfg, t)
  {
    hide Orderly, Origin, ScopesOf, Names, ApprovedRids, Rooted;
  }

  // -- one fact at a time ------------------------------------------------------

  /** Names a fact mints. */
  function Minted(f: Fact): set<string> {
    match f
    case Parked(rid) => {rid}
    case Approved(_, _, _, code) => {code}
    case Issued(_, _, access, refresh) => {access, refresh}
    case Spent(_) => {}
  }

  lemma {:induction false} RootedStays(h: History, f: Fact, k: string, clientId: string, scopes: seq<string>)
    requires Rooted(h, k, clientId, scopes) && k !in Minted(f) && f != Spent(k)
    ensures Rooted(Then(h, f), k, clientId, scopes)
    ensures Origin(Then(h, f), k) == Origin(h, k)
  {
    OriginOneMore(h, f, k);
  }

  lemma {:induction false} TablesStay(h: History, f: Fact, db: Tables)
    requires CodesRooted(h, db.codes) && TokensRooted(h, db.access) && TokensRooted(h, db.refresh)
    requires Follows(h, f)
    requires f.Spent? ==> f.name !in db.codes && f.name !in db.access && f.name !in db.refresh
    ensures CodesRooted(Then(h, f), db.codes) && TokensRooted(Then(h, f), db.access) && TokensRooted(Then(h, f), db.refresh)
    ensures forall k | k in Exchangeable(db) :: Origin(Then(h, f), k) == Origin(h, k)
    ensures forall k | k in db.codes || k in db.access || k in db.refresh :: k !in Minted(f)
  {
    hide Origin, ScopesOf, Names, Rooted;
    forall k | k in db.codes
      ensures Rooted(Then(h, f), k, db.codes[k].clientId, db.codes[k].scopes)
      ensures Origin(Then(h, f), k) == Origin(h, k) && k !in Minted(f)
    {
      RootedNamed(h, k, db.codes[k].clientId, db.codes[k].scopes);
      RootedStays(h, f, k, db.codes[k].clientId, db.codes[k].scopes);
    }
    forall k | k in db.access
      ensures Rooted(Then(h, f), k, db.access[k].clientId, db.access[k].scopes) && k !in Minted(f)
    {
      RootedNamed(h, k, db.access[k].clientId, db.access[k].scopes);
      RootedStays(h, f, k, db.access[k].clientId, db.access[k].scopes);
    }
    forall k | k in db.refresh
      ensures Rooted(Then(h, f), k, db.refresh[k].clientId, db.refresh[k].scopes)
      ensures Origin(Then(h, f), k) == Origin(h, k) && k !in Minted(f)
    {
      RootedNamed(h, k, db.refresh[k].clientId, db.refresh[k].scopes);
      RootedStays(h, f, k, db.refresh[k].clientId, db.refresh[k].scopes);
    }
  }

  lemma {:induction false} RootedNamed(h: History, k: string, clientId: string, scopes: seq<string>)
    requires Rooted(h, k, clientId, scopes)
    ensures k in Names(h)
  {
    OriginNamed(h, k);
  }

  lemma {:induction false} OnePerStays(h: History, g: History, names: set<string>)
    requires OnePerApproval(h, names) && forall k | k in names :: Origin(g, k) == Origin(h, k)
    ensures OnePerApproval(g, names)
  {
    hide Origin;
  }

  lemma {:induction false} PendingStays(h: History, f: Fact, pending: map<string, Pending>)
    requires PendingOpen(h, pending) && (f.Approved? ==> f.rid !in pending)
    ensures PendingOpen(Then(h, f), pending)
  {
    hide Names, ApprovedRids;
    OneMore(h, f);
  }

  /** Recording a fact that approves nothing keeps the invariant. */
  lemma {:induction false} RecordKeeps(cfg: Config, s: State, f: Fact)
    requires Inv(cfg, s) && Follows(s.history, f) && !f.Approved?
    requires f.Spent? ==> f.name !in s.db.codes && f.name !in s.db.access && f.name !in s.db.refresh
    ensures Inv(cfg, s.(history := Then(s.history, f)))
  {
    hide Orderly, Origin, ScopesOf, Names, ApprovedRids, Follows, CodesRooted, TokensRooted, PendingOpen, OnePerApproval;
    OneMore(s.history, f);
    TablesStay(s.history, f, s.db);
    OnePerStays(s.history, Then(s.history, f), Exchangeable(s.db));
    PendingStays(s.history, f, s.pending);
  }

  lemma {:induction false} ParkKeeps(cfg: Config, s: State, client: Client, params: Params, rid: string, now: real)
    requires Inv(cfg, s) && rid !in Names(s.history)
    ensures Inv(cfg, Authorized(s, client, params, rid, now))
  {
    hide Orderly, Origin, ScopesOf, Rooted;
    var f := Parked(rid);
    var t := s.(pending := StillPending(s.pending, now));
    ShrinkKeeps(cfg, s, t);
    RecordKeeps(cfg, t, f);
    OneMore(s.history, f);
    ApprovedNamed(s.history);
  }

  lemma {:induction false} ApprovedNamed(h: History)
    ensures ApprovedRids(h) <= Names(h)
    decreases h
  {
    if h.Then? {
      ApprovedNamed(h.earlier);
    }
  }

  lemma {:induction false} ApproveKeeps(cfg: Config, s: State, rid: string, code: string, now: real)
    requires Inv(cfg, s) && code !in Names(s.history) && code != cfg.staticToken
    ensures Inv(cfg, Completed(cfg, s, rid, code, now).0)
  {
    hide Inv, Names;
    var t := s.(pending := StillPending(s.pending, now));
    PruneKeeps(cfg, s, now);
    if rid in t.pending {
      ApproveOne(cfg, t, rid, MintCode(cfg, t.pending[rid], code, now));
    }
  }

  lemma {:induction false} PruneKeeps(cfg: Config, s: State, now: real)
    requires Inv(cfg, s)
    ensures Inv(cfg, s.(pending := StillPending(s.pending, now)))
  {
    hide Inv;
    ShrinkKeeps(cfg, s, s.(pending := StillPending(s.pending, now)));
  }

  lemma {:induction false} ApproveOne(cfg: Config, s: State, rid: string, c: AuthCode)
    requires Inv(cfg, s) && rid in s.pending && c.code !in Names(s.history) && c.code != cfg.staticToken
    ensures Inv(cfg, State(s.db.(codes := s.db.codes[c.code := c]), s.pending - {rid},
                           Then(s.history, Approved(rid, c.clientId, c.scopes, c.code))))
  {
    hide Orderly, Origin, ScopesOf, Names, ApprovedRids, CodesRooted, TokensRooted, OnePerApproval, Apart;
    var f := Approved(rid, c.clientId, c.scopes, c.code);
    OneMore(s.history, f);
    PendingStays(s.history, f, s.pending - {rid});
    TablesStay(s.history, f, s.db);
    AddCode(cfg, s.history, f, s.db, c);
  }

  /** A code minted for a newly approved request takes its place beside the rest. */
  lemma {:induction false} AddCode(cfg: Config, h: History, f: Fact, db: Tables, c: AuthCode)
    requires f.Approved? && Follows(h, f) && f.code != cfg.staticToken
    requires c.code == f.code && c.clientId == f.clientId && c.scopes == f.scopes
    requires CodesRooted(h, db.codes) && TokensRooted(h, db.access) && TokensRooted(h, db.refresh)
    requires Apart(cfg, db) && OnePerApproval(h, Exchangeable(db))
    ensures CodesRooted(Then(h, f), db.codes[c.code := c])
    ensures Apart(cfg, db.(codes := db.codes[c.code := c]))
    ensures OnePerApproval(Then(h, f), Exchangeable(db.(codes := db.codes[c.code := c])))
  {
    hide Origin, ScopesOf, Names, ApprovedRids, Rooted, Follows;
    TablesStay(h, f, db);
    NewCodeRooted(h, f);
    NoneOfNewApproval(h, f, db);
    assert Exchangeable(db.(codes := db.codes[c.code := c])) == Exchangeable(db) + {c.code};
  }

  lemma {:induction false} SpentNamed(h: History, n: string)
    requires Recorded(h, Spent(n))
    ensures n in Names(h)
    decreases h
  {
    if h.fact != Spent(n) {
      SpentNamed(h.earlier, n);
    }
  }

  lemma {:induction false} NewCodeRooted(h: History, f: Fact)
    requires f.Approved? && Follows(h, f)
    ensures Rooted(Then(h, f), f.code, f.clientId, f.scopes)
    ensures Origin(Then(h, f), f.code).Some? && Origin(Then(h, f), f.code).value.rid == f.rid
  {
    OriginOneMore(h, f, f.code);
    if Recorded(h, Spent(f.code)) {
      SpentNamed(h, f.code);
    }
  }

  /** Nothing stored descends from a request not yet approved. */
  lemma {:induction false} NoneOfNewApproval(h: History, f: Fact, db: Tables)
    requires f.Approved? && Follows(h, f)
    requires CodesRooted(h, db.codes) && TokensRooted(h, db.refresh)
    ensures forall k | k in Exchangeable(db) :: Origin(h, k).Some? && Origin(h, k).value.rid != f.rid
  {
    hide Origin, ScopesOf, Names, ApprovedRids;
    forall k | k in Exchangeable(db)
      ensures Origin(h, k).Some? && Origin(h, k).value.rid != f.rid
    {
      OriginNamed(h, k);
    }
  }

  // -- spending and issuing ----------------------------------------------------

  lemma {:induction false} ParentsSpent(h: History, p: string)
    requires Orderly(h) && p in Parents(h)
    ensures Recorded(h, Spent(p))
    decreases h
  {
    hide Origin, ScopesOf, Names, ApprovedRids;
    var init, f := h.earlier, h.fact;
    if p in Parents(init) {
      ParentsSpent(init, p);
    }
  }

  /** A parent that has just been spent: nothing else that may be exchanged descends
      from its approval, and nothing was issued for it. */
  predicate ReadyToIssue(s: State, parent: string, clientId: string, scopes: seq<string>) {
    var h := s.history;
    && Recorded(h, Spent(parent)) && parent !in Parents(h) && parent in Names(h)
    && Origin(h, parent).Some? && Origin(h, parent).value.clientId == clientId
    && ScopesOf(h, parent) == Some(scopes)
    && forall k | k in Exchangeable(s.db) :: Origin(h, k).Some? && Origin(h, k).value.rid != Origin(h, parent).value.rid
  }

  predicate Holds(db: Tables, parent: string, clientId: string, scopes: seq<string>) {
    || (parent in db.codes && db.codes[parent].clientId == clientId && db.codes[parent].scopes == scopes)
    || (parent in db.refresh && db.refresh[parent].clientId == clientId && db.refresh[parent].scopes == scopes)
  }

  function WithoutParent(s: State, parent: string): State {
    State(s.db.(codes := s.db.codes - {parent}, refresh := s.db.refresh - {parent}), s.pending,
          Then(s.history, Spent(parent)))
  }

  lemma {:induction false} SpendKeeps(cfg: Config, s: State, parent: string)
    requires Inv(cfg, s) && parent in Exchangeable(s.db)
    ensures Inv(cfg, WithoutParent(s, parent))
  {
    hide Orderly, Origin, ScopesOf, Names, ApprovedRids, CodesRooted, TokensRooted, OnePerApproval, PendingOpen;
    var t := s.(db := s.db.(codes := s.db.codes - {parent}, refresh := s.db.refresh - {parent}));
    ShrinkKeeps(cfg, s, t);
    RecordKeeps(cfg, t, Spent(parent));
  }

  lemma {:induction false} SpendReadies(cfg: Config, s: State, parent: string, clientId: string, scopes: seq<string>)
    requires Inv(cfg, s) && Holds(s.db, parent, clientId, scopes)
    ensures ReadyToIssue(WithoutParent(s, parent), parent, clientId, scopes)
  {
    hide Orderly, Origin, ScopesOf, Names, ApprovedRids, Parents;
    var h, f := s.history, Spent(parent);
    var t := WithoutParent(s, parent);
    assert Rooted(h, parent, clientId, scopes);
    RootedNamed(h, parent, clientId, scopes);
    OneMore(h, f);
    OriginOneMore(h, f, parent);
    if parent in Parents(h) {
      ParentsSpent(h, parent);
      assert false;
    }
    forall k | k in Exchangeable(t.db)
      ensures Origin(t.history, k).Some? && Origin(t.history, k).value.rid != Origin(t.history, parent).value.rid
    {
      OriginOneMore(h, f, k);
      assert k in Exchangeable(s.db) && parent in Exchangeable(s.db);
    }
  }

  lemma {:induction false} IssuedRooted(h: History, f: Fact, clientId: string, n: string)
    requires f.Issued? && Follows(h, f) && Origin(h, f.parent).value.clientId == clientId
    requires n == f.access || n == f.refresh
    ensures Rooted(Then(h, f), n, clientId, f.scopes)
    ensures Origin(Then(h, f), n) == Origin(h, f.parent)
  {
    OriginOneMore(h, f, n);
    if Recorded(h, Spent(n)) {
      SpentNamed(h, n);
    }
  }

  /** What a pair of tokens issued for a parent must be. */
  predicate Pair(f: Fact, a: Token, r: Token, clientId: string) {
    && f.Issued?
    && a.token == f.access && a.clientId == clientId && a.scopes == f.scopes
    && r.token == f.refresh && r.clientId == clientId && r.scopes == f.scopes
  }

  lemma {:induction false} AddTokens(cfg: Config, h: History, f: Fact, db: Tables, a: Token, r: Token, clientId: string)
    requires Pair(f, a, r, clientId) && Follows(h, f)
    requires Origin(h, f.parent).value.clientId == clientId
    requires f.access != cfg.staticToken && f.refresh != cfg.staticToken
    requires CodesRooted(h, db.codes) && TokensRooted(h, db.access) && TokensRooted(h, db.refresh)
    requires Apart(cfg, db) && OnePerApproval(h, Exchangeable(db))
    requires forall k | k in Exchangeable(db) :: Origin(h, k).Some? && Origin(h, k).value.rid != Origin(h, f.parent).value.rid
    ensures var after := db.(access := db.access[f.access := a], refresh := db.refresh[f.refresh := r]);
            && CodesRooted(Then(h, f), after.codes)
            && TokensRooted(Then(h, f), after.access) && TokensRooted(Then(h, f), after.refresh)
            && Apart(cfg, after) && OnePerApproval(Then(h, f), Exchangeable(after))
  {
    hide Origin, ScopesOf, Names, ApprovedRids, Rooted;
    TablesStay(h, f, db);
    IssuedRooted(h, f, clientId, f.access);
    IssuedRooted(h, f, clientId, f.refresh);
    var after := db.(access := db.access[f.access := a], refresh := db.refresh[f.refresh := r]);
    assert Exchangeable(after) == Exchangeable(db) + {f.refresh};
  }

  lemma {:induction false} IssueKeeps(cfg: Config, s: State, client: Client, had: seq<string>, scopes: seq<string>,
                                      subject: Option<string>, parent: string, access: string, refresh: string, now: real)
    requires Inv(cfg, s) && ReadyToIssue(s, parent, client.clientId, had) && Subset(scopes, had)
    requires access !in Names(s.history) && refresh !in Names(s.history) && access != refresh
    requires access != cfg.staticToken && refresh != cfg.staticToken
    ensures Inv(cfg, Issue(cfg, s, client, scopes, subject, parent, access, refresh, now))
  {
    hide Orderly, Origin, ScopesOf, Names, ApprovedRids, CodesRooted, TokensRooted, OnePerApproval, Apart, Parents;
    var f := Issued(parent, scopes, access, refresh);
    assert Follows(s.history, f);
    OneMore(s.history, f);
    PendingStays(s.history, f, s.pending);
    AddTokens(cfg, s.history, f, s.db, NewToken(access, client, scopes, cfg.accessTtl, subject, now),
              NewToken(refresh, client, scopes, cfg.refreshTtl, subject, now), client.clientId);
  }

  // -- every event -------------------------------------------------------------

  /** The strings an event mints are new, distinct, and not the static token. */
  predicate Fresh(cfg: Config, s: State, e: Event) {
    match e
    case Authorize(_, _, rid) => rid !in Names(s.history)
    case LoginPost(_, _, code, _) => code !in Names(s.history) && code != cfg.staticToken
    case CodeGrant(_, _, _, access, refresh) => FreshPair(cfg, s, access, refresh)
    case RefreshGrant(_, _, _, access, refresh) => FreshPair(cfg, s, access, refresh)
    case _ => true
  }

  predicate FreshPair(cfg: Config, s: State, access: string, refresh: string) {
    && access !in Names(s.history) && refresh !in Names(s.history) && access != refresh
    && access != cfg.staticToken && refresh != cfg.staticToken
  }

  lemma {:induction false} SubsetSelf(a: seq<string>)
    ensures Subset(a, a)
  {
  }

  /** Loading a stored code takes it away, and its name is spent. */
  lemma {:induction false} LoadCodeSpends(cfg: Config, s: State, code: string, now: real)
    requires Inv(cfg, s)
    ensures code in s.db.codes ==> LoadCode(s, code, now).0 == WithoutParent(s, code)
    ensures code !in s.db.codes ==> LoadCode(s, code, now).0 == s && LoadCode(s, code, now).1.None?
  {
    hide Orderly, Origin, ScopesOf, Names, ApprovedRids, CodesRooted, TokensRooted, OnePerApproval, PendingOpen;
    if code in s.db.codes {
      assert s.db.refresh - {code} == s.db.refresh;
    } else {
      assert s.db.codes - {code} == s.db.codes;
    }
  }

  lemma {:induction false} CodeGrantKeeps(cfg: Config, s: State, client: Client, code: string, sdkOk: bool, access: string, refresh: string, now: real)
    requires Inv(cfg, s) && FreshPair(cfg, s, access, refresh)
    ensures Inv(cfg, GrantCode(cfg, s, client, code, sdkOk, access, refresh, now).0)
  {
    hide Names, Inv, ReadyToIssue, Issue;
    LoadCodeSpends(cfg, s, code, now);
    if code in s.db.codes {
      var c := s.db.codes[code];
      var t := WithoutParent(s, code);
      SpendKeeps(cfg, s, code);
      SpendReadies(cfg, s, code, c.clientId, c.scopes);
      OneMore(s.history, Spent(code));
      SpentKnown(cfg, s, code);
      SubsetSelf(c.scopes);
      if LoadCode(s, code, now).1.Some? && c.clientId == client.clientId && sdkOk {
        IssueKeeps(cfg, t, client, c.scopes, c.scopes, c.subject, code, access, refresh, now);
      }
    }
  }

  /** Spending a stored name mentions no new one. */
  lemma {:induction false} SpentKnown(cfg: Config, s: State, name: string)
    requires Inv(cfg, s) && (name in s.db.codes || name in s.db.access || name in s.db.refresh)
    ensures Names(Then(s.history, Spent(name))) == Names(s.history)
    ensures name in s.db.codes ==> s.db.codes[name].code == name
    ensures name in s.db.access ==> s.db.access[name].token == name
    ensures name in s.db.refresh ==> s.db.refresh[name].token == name
  {
    hide Origin, ScopesOf, ApprovedRids, Orderly, OnePerApproval;
    OneMore(s.history, Spent(name));
    OriginNamed(s.history, name);
  }

  lemma {:induction false} LoadRefreshKeeps(cfg: Config, s: State, token: string, now: real)
    requires Inv(cfg, s)
    ensures Inv(cfg, LoadRefresh(s, token, now).0)
    ensures LoadRefresh(s, token, now).1.Some? ==>
              LoadRefresh(s, token, now).0 == s && token in s.db.refresh && LoadRefresh(s, token, now).1.value == s.db.refresh[token]
  {
    hide Inv;
    ShrinkKeeps(cfg, s, LoadRefresh(s, token, now).0);
  }

  lemma {:induction false} LoadAccessKeeps(cfg: Config, s: State, token: string, now: real)
    requires Inv(cfg, s)
    ensures Inv(cfg, LoadAccess(cfg, s, token, now).0)
    ensures LoadAccess(cfg, s, token, now).1.Some? ==>
              && LoadAccess(cfg, s, token, now).0 == s && LoadAccess(cfg, s, token, now).1.value.token == token
              && (token in s.db.access || token == cfg.staticToken)
  {
    ShrinkKeeps(cfg, s, LoadAccess(cfg, s, token, now).0);
  }

  /** Rotating a stored refresh token. */
  lemma {:induction false} ExchangeKeeps(cfg: Config, s: State, client: Client, token: string, requested: seq<string>,
                                         access: string, refresh: string, now: real)
    requires Inv(cfg, s) && FreshPair(cfg, s, access, refresh) && token in s.db.refresh
    requires s.db.refresh[token].clientId == client.clientId && Subset(requested, s.db.refresh[token].scopes)
    ensures Inv(cfg, ExchangeRefresh(cfg, s, client, s.db.refresh[token], requested, access, refresh, now))
  {
    hide Names, Inv, ReadyToIssue, Issue;
    var t := s.db.refresh[token];
    SpentKnown(cfg, s, token);
    RotateSpends(cfg, s, token);
    SpendKeeps(cfg, s, token);
    SpendReadies(cfg, s, token, t.clientId, t.scopes);
    SubsetSelf(t.scopes);
    IssueKeeps(cfg, WithoutParent(s, token), client, t.scopes, ScopesOr(requested, t.scopes), t.subject, token, access, refresh, now);
  }

  lemma {:induction false} RefreshGrantKeeps(cfg: Config, s: State, client: Client, token: string, requested: seq<string>,
                                             access: string, refresh: string, now: real)
    requires Inv(cfg, s) && FreshPair(cfg, s, access, refresh)
    ensures Inv(cfg, GrantRefresh(cfg, s, client, token, requested, access, refresh, now).0)
  {
    hide Names, Inv, ExchangeRefresh;
    var l := LoadRefresh(s, token, now);
    LoadRefreshKeeps(cfg, s, token, now);
    if l.1.Some? && l.1.value.clientId == client.clientId && Subset(requested, l.1.value.scopes) {
      ExchangeKeeps(cfg, s, client, token, requested, access, refresh, now);
    }
  }

  lemma {:induction false} RotateSpends(cfg: Config, s: State, token: string)
    requires Inv(cfg, s) && token in s.db.refresh
    ensures WithoutParent(s, token)
         == s.(db := s.db.(refresh := s.db.refresh - {token}), history := Then(s.history, Spent(token)))
  {
    hide Orderly, Origin, ScopesOf, Names, ApprovedRids, CodesRooted, TokensRooted, OnePerApproval, PendingOpen;
    assert s.db.codes - {token} == s.db.codes;
  }

  lemma {:induction false} RevokeKeeps(cfg: Config, s: State, client: Client, token: string, now: real)
    requires Inv(cfg, s)
    ensures Inv(cfg, RevokeOwn(cfg, s, client, token, now))
  {
    hide Inv;
    var a := LoadAccess(cfg, s, token, now);
    LoadAccessKeeps(cfg, s, token, now);
    LoadRefreshKeeps(cfg, a.0, token, now);
    var r := if a.1.Some? then a else LoadRefresh(a.0, token, now);
    if r.1.Some? && r.1.value.clientId == client.clientId {
      if a.1.None? {
        SpentKnown(cfg, a.0, token);
      }
      DeleteKeeps(cfg, r.0, token, now);
    }
  }

  lemma {:induction false} DeleteKeeps(cfg: Config, s: State, name: string, now: real)
    requires Inv(cfg, s) && (name in s.db.access || name in s.db.refresh || name == cfg.staticToken)
    ensures Inv(cfg, RevokeToken(s, name, now))
  {
    hide Orderly, Origin, ScopesOf, Names, ApprovedRids, CodesRooted, TokensRooted, OnePerApproval, PendingOpen;
    var t := s.(db := s.db.(access := s.db.access - {name}, refresh := s.db.refresh - {name}));
    ShrinkKeeps(cfg, s, t);
    RecordKeeps(cfg, t, Spent(name));
  }

  lemma {:induction false} LoginKeeps(cfg: Config, s: State, rid: string, supplied: string, code: string, now: real, later: real)
    requires Inv(cfg, s) && code !in Names(s.history) && code != cfg.staticToken
    ensures Inv(cfg, OAuthProvider.LoginPost(cfg, s, rid, supplied, code, now, later).0)
  {
    hide Inv, Names, Completed;
    PruneKeeps(cfg, s, now);
    ApproveKeeps(cfg, LookupPending(s, rid, now).0, rid, code, later);
  }

  /** Every event of every run keeps the invariant. */
  lemma {:induction false} ApplyKeeps(cfg: Config, s: State, e: Event, now: real)
    requires Inv(cfg, s) && Fresh(cfg, s, e)
    ensures Inv(cfg, Apply(cfg, s, e, now).0)
  {
    hide Inv, Names, Authorized, GrantCode, GrantRefresh, RevokeOwn;
    match e
    case Register(client) =>
      ShrinkKeeps(cfg, s, Apply(cfg, s, e, now).0);
    case Authorize(client, params, rid) =>
      ParkKeeps(cfg, s, client, params, rid, now);
    case LoginGet(rid) =>
      PruneKeeps(cfg, s, now);
    case LoginPost(rid, supplied, code, later) =>
      LoginKeeps(cfg, s, rid, supplied, code, now, later);
    case CodeGrant(client, code, sdkOk, access, refresh) =>
      CodeGrantKeeps(cfg, s, client, code, sdkOk, access, refresh, now);
    case RefreshGrant(client, token, requested, access, refresh) =>
      RefreshGrantKeeps(cfg, s, client, token, requested, access, refresh, now);
    case Present(token) =>
      LoadAccessKeeps(cfg, s, token, now);
    case Revoke(client, token) =>
      RevokeKeeps(cfg, s, client, token, now);
    case Maintain =>
      ShrinkKeeps(cfg, s, Apply(cfg, s, e, now).0);
  }
}
