/** oauth/store.py: clients, one-time codes, access and refresh tokens in four tables.
    Every method reads the clock once; `now` is that reading. */
module OAuthStore {
  import opened Text

  datatype Client = Client(clientId: string, data: string)

  datatype AuthCode = AuthCode(
    code: string,
    scopes: seq<string>,
    expiresAt: real,
    clientId: string,
    codeChallenge: string,
    redirectUri: string,
    explicitUri: bool,
    resource: Option<string>,
    subject: Option<string>)

  /** An access or a refresh token; one without `expiresAt` never expires. */
  datatype Token = Token(
    token: string,
    clientId: string,
    scopes: seq<string>,
    expiresAt: Option<int>,
    subject: Option<string>)

  datatype Tables = Tables(
    clients: map<string, Client>,
    codes: map<string, AuthCode>,
    access: map<string, Token>,
    refresh: map<string, Token>)

  const NO_TABLES := Tables(map[], map[], map[], map[])

  predicate CodeExpired(c: AuthCode, now: real) { c.expiresAt < now }

  predicate TokenExpired(t: Token, now: real) { t.expiresAt.Some? && t.expiresAt.value as real < now }

  // -- what each operation does ------------------------------------------------

  datatype Op =
    | PutClient(client: Client)
    | GetClient(clientId: string)
    | PutCode(authCode: AuthCode)
    | TakeCode(code: string)
    | PutAccess(access: Token)
    | GetAccess(token: string)
    | DeleteAccess(token: string)
    | PutRefresh(refresh: Token)
    | GetRefresh(token: string)
    | DeleteRefresh(token: string)
    | Prune

  datatype Answer =
    | Nothing
    | SomeClient(client: Option<Client>)
    | SomeCode(authCode: Option<AuthCode>)
    | SomeToken(token: Option<Token>)
    | Removed(count: nat)

  /** A row as a reader sees it at time `now`. */
  function LiveCode(m: map<string, AuthCode>, k: string, now: real): Option<AuthCode> {
    if k in m && !CodeExpired(m[k], now) then Some(m[k]) else None
  }

  function LiveToken(m: map<string, Token>, k: string, now: real): Option<Token> {
    if k in m && !TokenExpired(m[k], now) then Some(m[k]) else None
  }

  /** Lazy deletion: reading an expired row removes it. */
  function Swept(m: map<string, Token>, k: string, now: real): map<string, Token> {
    if k in m && TokenExpired(m[k], now) then m - {k} else m
  }

  function StaleCodes(m: map<string, AuthCode>, now: real): set<string> {
    set k | k in m && CodeExpired(m[k], now)
  }

  function StaleTokens(m: map<string, Token>, now: real): set<string> {
    set k | k in m && TokenExpired(m[k], now)
  }

  function Step(db: Tables, op: Op, now: real): (Tables, Answer) {
    match op
    case PutClient(c) => (db.(clients := db.clients[c.clientId := c]), Nothing)
    case GetClient(id) => (db, SomeClient(if id in db.clients then Some(db.clients[id]) else None))
    case PutCode(c) => (db.(codes := db.codes[c.code := c]), Nothing)
    case TakeCode(c) => (db.(codes := db.codes - {c}), SomeCode(LiveCode(db.codes, c, now)))
    case PutAccess(t) => (db.(access := db.access[t.token := t]), Nothing)
    case GetAccess(t) => (db.(access := Swept(db.access, t, now)), SomeToken(LiveToken(db.access, t, now)))
    case DeleteAccess(t) => (db.(access := db.access - {t}), Nothing)
    case PutRefresh(t) => (db.(refresh := db.refresh[t.token := t]), Nothing)
    case GetRefresh(t) => (db.(refresh := Swept(db.refresh, t, now)), SomeToken(LiveToken(db.refresh, t, now)))
    case DeleteRefresh(t) => (db.(refresh := db.refresh - {t}), Nothing)
    case Prune =>
      var c, a, r := StaleCodes(db.codes, now), StaleTokens(db.access, now), StaleTokens(db.refresh, now);
      (db.(codes := db.codes - c, access := db.access - a, refresh := db.refresh - r), Removed(|c| + |a| + |r|))
  }

  // -- the store object --------------------------------------------------------

  class Store {
    var clients: map<string, Client>
    var codes: map<string, AuthCode>
    var access: map<string, Token>
    var refresh: map<string, Token>

    ghost function Db(): Tables
      reads this
    {
      Tables(clients, codes, access, refresh)
    }

    constructor ()
      ensures Db() == NO_TABLES
    {
      clients, codes, access, refresh := map[], map[], map[], map[];
    }

    method PutClient(c: Client, now: real)
      modifies this
      ensures Db() == Step(old(Db()), Op.PutClient(c), now).0
    {
      clients := clients[c.clientId := c];
    }

    method GetClient(id: string, now: real) returns (r: Option<Client>)
      ensures SomeClient(r) == Step(Db(), Op.GetClient(id), now).1
    {
      r := if id in clients then Some(clients[id]) else None;
    }

    method PutAuthCode(c: AuthCode, now: real)
      modifies this
      ensures Db() == Step(old(Db()), PutCode(c), now).0
    {
      codes := codes[c.code := c];
    }

    method TakeAuthCode(code: string, now: real) returns (r: Option<AuthCode>)
      modifies this
      ensures (Db(), SomeCode(r)) == Step(old(Db()), TakeCode(code), now)
    {
      var row := if code in codes then Some(codes[code]) else None;
      codes := codes - {code};
      if row.None? || row.value.expiresAt < now {
        return None;
      }
      return row;
    }

    method PutAccessToken(t: Token, now: real)
      modifies this
      ensures Db() == Step(old(Db()), PutAccess(t), now).0
    {
      access := access[t.token := t];
    }

    method GetAccessToken(token: string, now: real) returns (r: Option<Token>)
      modifies this
      ensures (Db(), SomeToken(r)) == Step(old(Db()), GetAccess(token), now)
    {
      if token !in access {
        return None;
      }
      var row := access[token];
      if row.expiresAt.Some? && row.expiresAt.value as real < now {
        DeleteAccessToken(token, now);
        return None;
      }
      return Some(row);
    }

    method DeleteAccessToken(token: string, now: real)
      modifies this
      ensures Db() == Step(old(Db()), DeleteAccess(token), now).0
    {
      access := access - {token};
    }

    method PutRefreshToken(t: Token, now: real)
      modifies this
      ensures Db() == Step(old(Db()), PutRefresh(t), now).0
    {
      refresh := refresh[t.token := t];
    }

    method GetRefreshToken(token: string, now: real) returns (r: Option<Token>)
      modifies this
      ensures (Db(), SomeToken(r)) == Step(old(Db()), GetRefresh(token), now)
    {
      if token !in refresh {
        return None;
      }
      var row := refresh[token];
      if row.expiresAt.Some? && row.expiresAt.value as real < now {
        DeleteRefreshToken(token, now);
        return None;
      }
      return Some(row);
    }

    method DeleteRefreshToken(token: string, now: real)
      modifies this
      ensures Db() == Step(old(Db()), DeleteRefresh(token), now).0
    {
      refresh := refresh - {token};
    }

    method PruneExpired(now: real) returns (removed: nat)
      modifies this
      ensures (Db(), Removed(removed)) == Step(old(Db()), Prune, now)
    {
      var c := StaleCodes(codes, now);
      codes := codes - c;
      removed := |c|;
      var a := StaleTokens(access, now);
      access := access - a;
      removed := removed + |a|;
      var r := StaleTokens(refresh, now);
      refresh := refresh - r;
      removed := removed + |r|;
    }
  }

  // -- the ideal store ---------------------------------------------------------

  /** No lazy deletion and no maintenance: rows go only when put over, taken or
      deleted, and a reader is shown a row until it expires. */
  function IdealStep(db: Tables, op: Op, now: real): (Tables, Answer) {
    match op
    case GetAccess(t) => (db, SomeToken(LiveToken(db.access, t, now)))
    case GetRefresh(t) => (db, SomeToken(LiveToken(db.refresh, t, now)))
    case Prune => (db, Removed(0))
    case _ => Step(db, op, now)
  }

  datatype Call = Call(op: Op, now: real)

  /** The answers of a run, in order. */
  function Answers(db: Tables, calls: seq<Call>): (answers: seq<Answer>)
    ensures |answers| == |calls|
    decreases |calls|
  {
    if calls == [] then []
    else
      var r := Step(db, calls[0].op, calls[0].now);
      [r.1] + Answers(r.0, calls[1..])
  }

  function IdealAnswers(db: Tables, calls: seq<Call>): (answers: seq<Answer>)
    ensures |answers| == |calls|
    decreases |calls|
  {
    if calls == [] then []
    else
      var r := IdealStep(db, calls[0].op, calls[0].now);
      [r.1] + IdealAnswers(r.0, calls[1..])
  }

  /** How many rows maintenance removed is the one answer that depends on what was
      swept before. */
  predicate SameAnswer(a: Answer, b: Answer) { a == b || (a.Removed? && b.Removed?) }

  predicate SameAnswers(a: seq<Answer>, b: seq<Answer>) {
    |a| == |b| && forall i | 0 <= i < |a| :: SameAnswer(a[i], b[i])
  }

  /** The clock never goes back. */
  predicate Monotone(from: real, calls: seq<Call>)
    decreases |calls|
  {
    calls == [] || (from <= calls[0].now && Monotone(calls[0].now, calls[1..]))
  }

  ghost predicate CodesAgree(m: map<string, AuthCode>, n: map<string, AuthCode>, now: real) {
    forall k, t: real | now <= t :: LiveCode(m, k, t) == LiveCode(n, k, t)
  }

  ghost predicate TokensAgree(m: map<string, Token>, n: map<string, Token>, now: real) {
    forall k, t: real | now <= t :: LiveToken(m, k, t) == LiveToken(n, k, t)
  }

  /** Two stores that no reader can tell apart from time `now` on. */
  ghost predicate Agree(db: Tables, ideal: Tables, now: real) {
    && db.clients == ideal.clients
    && CodesAgree(db.codes, ideal.codes, now)
    && TokensAgree(db.access, ideal.access, now)
    && TokensAgree(db.refresh, ideal.refresh, now)
  }

  lemma {:induction false} CodesStep(m: map<string, AuthCode>, n: map<string, AuthCode>, now: real, c: AuthCode, gone: string)
    requires CodesAgree(m, n, now)
    ensures CodesAgree(m[c.code := c], n[c.code := c], now)
    ensures CodesAgree(m - {gone}, n - {gone}, now)
    ensures CodesAgree(m - StaleCodes(m, now), n, now)
  {
    forall k, t: real | now <= t
      ensures LiveCode(m[c.code := c], k, t) == LiveCode(n[c.code := c], k, t)
      ensures LiveCode(m - {gone}, k, t) == LiveCode(n - {gone}, k, t)
      ensures LiveCode(m - StaleCodes(m, now), k, t) == LiveCode(n, k, t)
    {
      assert LiveCode(m, k, t) == LiveCode(n, k, t);
    }
  }

  lemma {:induction false} TokensPut(m: map<string, Token>, n: map<string, Token>, now: real, tok: Token)
    requires TokensAgree(m, n, now)
    ensures TokensAgree(m[tok.token := tok], n[tok.token := tok], now)
  {
    var p, q := m[tok.token := tok], n[tok.token := tok];
    forall k, t: real | now <= t
      ensures LiveToken(p, k, t) == LiveToken(q, k, t)
    {
      assert LiveToken(m, k, t) == LiveToken(n, k, t);
    }
  }

  lemma {:induction false} TokensGone(m: map<string, Token>, n: map<string, Token>, now: real, gone: string)
    requires TokensAgree(m, n, now)
    ensures TokensAgree(m - {gone}, n - {gone}, now)
    ensures TokensAgree(Swept(m, gone, now), n, now)
    ensures TokensAgree(m - StaleTokens(m, now), n, now)
  {
    forall k, t: real | now <= t
      ensures LiveToken(m - {gone}, k, t) == LiveToken(n - {gone}, k, t)
      ensures LiveToken(Swept(m, gone, now), k, t) == LiveToken(n, k, t)
      ensures LiveToken(m - StaleTokens(m, now), k, t) == LiveToken(n, k, t)
    {
      assert LiveToken(m, k, t) == LiveToken(n, k, t);
    }
  }

  /** A name the operation is about, for the helper lemmas. */
  function OpKey(op: Op): string {
    match op
    case TakeCode(c) => c
    case GetAccess(t) => t
    case DeleteAccess(t) => t
    case GetRefresh(t) => t
    case DeleteRefresh(t) => t
    case _ => ""
  }

  lemma {:induction false} StepAgrees(db: Tables, ideal: Tables, op: Op, from: real, now: real)
    requires Agree(db, ideal, from) && from <= now
    ensures Agree(Step(db, op, now).0, IdealStep(ideal, op, now).0, now)
    ensures SameAnswer(Step(db, op, now).1, IdealStep(ideal, op, now).1)
  {
    var k := OpKey(op);
    var c := if op.PutCode? then op.authCode else AuthCode("", [], 0.0, "", "", "", false, None, None);
    var tok := if op.PutAccess? then op.access else if op.PutRefresh? then op.refresh else Token("", "", [], None, None);
    CodesStep(db.codes, ideal.codes, now, c, k);
    TokensPut(db.access, ideal.access, now, tok);
    TokensPut(db.refresh, ideal.refresh, now, tok);
    TokensGone(db.access, ideal.access, now, k);
    TokensGone(db.refresh, ideal.refresh, now, k);
    assert LiveCode(db.codes, k, now) == LiveCode(ideal.codes, k, now);
  }

  /** The store refines the ideal one: with a clock that never goes back, every call
      of every run is answered as if rows were never swept. */
  lemma {:induction false} StoreRefinesIdeal(db: Tables, ideal: Tables, from: real, calls: seq<Call>)
    requires Agree(db, ideal, from) && Monotone(from, calls)
    ensures SameAnswers(Answers(db, calls), IdealAnswers(ideal, calls))
    decreases |calls|
  {
    if calls != [] {
      var c := calls[0];
      StepAgrees(db, ideal, c.op, from, c.now);
      StoreRefinesIdeal(Step(db, c.op, c.now).0, IdealStep(ideal, c.op, c.now).0, c.now, calls[1..]);
    }
  }

  /** Maintenance and expired reads are invisible: a store swept at any moment answers
      every later call as the unswept one does. */
  lemma {:induction false} SweepingIsInvisible(db: Tables, op: Op, now: real, later: seq<Call>)
    requires op.Prune? || op.GetAccess? || op.GetRefresh?
    requires Monotone(now, later)
    ensures SameAnswers(Answers(Step(db, op, now).0, later), Answers(db, later))
  {
    var swept := Step(db, op, now).0;
    StepAgrees(db, db, op, now, now);
    StoreRefinesIdeal(swept, db, now, later);
    StoreRefinesIdeal(db, db, now, later);
  }

  /** The clock must not go back: reading a token after it expired loses it, so a
      reader at an earlier time no longer sees what the ideal store shows. */
  lemma {:induction false} BackwardClockShows(t: Token, early: real, late: real)
    requires TokenExpired(t, late) && !TokenExpired(t, early)
    ensures var db := NO_TABLES.(access := map[t.token := t]);
            var calls := [Call(GetAccess(t.token), late), Call(GetAccess(t.token), early)];
            && IdealAnswers(db, calls)[1] == SomeToken(Some(t))
            && Answers(db, calls)[1] == SomeToken(None)
  {
    var db := NO_TABLES.(access := map[t.token := t]);
    var calls := [Call(GetAccess(t.token), late), Call(GetAccess(t.token), early)];
    assert calls[1..] == [Call(GetAccess(t.token), early)];
  }
}
