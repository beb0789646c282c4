/** What every read of the store answers, told from the calls made before it. */
module OAuthRows {
  import opened Text
  import opened OAuthStore

  /** Writes or removes the row that `put` wrote. */
  predicate Writes(op: Op, put: Op) {
    match put
    case PutClient(c) => op.PutClient? && op.client.clientId == c.clientId
    case PutCode(c) => (op.PutCode? && op.authCode.code == c.code) || op == TakeCode(c.code)
    case PutAccess(t) => (op.PutAccess? && op.access.token == t.token) || op == DeleteAccess(t.token)
    case PutRefresh(t) => (op.PutRefresh? && op.refresh.token == t.token) || op == DeleteRefresh(t.token)
    case _ => false
  }

  predicate Stands(calls: seq<Call>, put: Op, i: int) {
    0 <= i < |calls| && calls[i].op == put && forall j | i < j < |calls| :: !Writes(calls[j].op, put)
  }

  /** Put, and neither put over, taken nor deleted since. */
  ghost predicate Standing(calls: seq<Call>, put: Op) { exists i :: Stands(calls, put, i) }

  predicate Holds(db: Tables, put: Op) {
    match put
    case PutClient(c) => c.clientId in db.clients && db.clients[c.clientId] == c
    case PutCode(c) => c.code in db.codes && db.codes[c.code] == c
    case PutAccess(t) => t.token in db.access && db.access[t.token] == t
    case PutRefresh(t) => t.token in db.refresh && db.refresh[t.token] == t
    case _ => false
  }

  function IdealRun(calls: seq<Call>): Tables {
    if calls == [] then NO_TABLES
    else IdealStep(IdealRun(calls[..|calls| - 1]), calls[|calls| - 1].op, calls[|calls| - 1].now).0
  }

  lemma {:induction false} StandingMore(calls: seq<Call>, put: Op)
    requires calls != [] && (put.PutClient? || put.PutCode? || put.PutAccess? || put.PutRefresh?)
    ensures var init, op := calls[..|calls| - 1], calls[|calls| - 1].op;
            Standing(calls, put) <==> op == put || (!Writes(op, put) && Standing(init, put))
  {
    var n := |calls| - 1;
    if i :| Stands(calls, put, i) && i < n {
      assert Stands(calls[..n], put, i);
    }
    if calls[n].op == put {
      assert Stands(calls, put, n);
    } else if i :| Stands(calls[..n], put, i) && !Writes(calls[n].op, put) {
      assert Stands(calls, put, i);
    }
  }

  /** The ideal store holds just the rows that stand. */
  lemma {:induction false} HoldsStanding(calls: seq<Call>, put: Op)
    requires put.PutClient? || put.PutCode? || put.PutAccess? || put.PutRefresh?
    ensures Holds(IdealRun(calls), put) <==> Standing(calls, put)
  {
    hide Standing;
    if calls == [] {
      NoneStands(put);
    } else {
      StandingMore(calls, put);
      HoldsStanding(calls[..|calls| - 1], put);
    }
  }

  lemma {:induction false} NoneStands(put: Op)
    ensures !Standing([], put)
  {
  }

  /** Rows are kept under their own names. */
  predicate Keyed(db: Tables) {
    && (forall k | k in db.clients :: db.clients[k].clientId == k)
    && (forall k | k in db.codes :: db.codes[k].code == k)
    && (forall k | k in db.access :: db.access[k].token == k)
    && (forall k | k in db.refresh :: db.refresh[k].token == k)
  }

  lemma {:induction false} IdealKeyed(calls: seq<Call>)
    ensures Keyed(IdealRun(calls))
  {
    hide Keyed, IdealStep;
    if calls == [] {
      NothingKeyed();
    } else {
      IdealKeyed(calls[..|calls| - 1]);
      StepKeyed(IdealRun(calls[..|calls| - 1]), calls[|calls| - 1].op, calls[|calls| - 1].now);
    }
  }

  lemma {:induction false} NothingKeyed()
    ensures Keyed(NO_TABLES)
  {
  }

  lemma {:induction false} StepKeyed(db: Tables, op: Op, now: real)
    requires Keyed(db)
    ensures Keyed(IdealStep(db, op, now).0)
  {
  }

  lemma {:induction false} IdealAnswerAt(db: Tables, calls: seq<Call>, more: seq<Call>, n: nat)
    requires db == IdealRun(calls) && n < |more|
    ensures IdealAnswers(db, more)[n] == IdealStep(IdealRun(calls + more[..n]), more[n].op, more[n].now).1
    decreases |more|
  {
    hide IdealStep;
    if n == 0 {
      assert calls + more[..0] == calls;
    } else {
      var next := calls + [more[0]];
      assert next[..|next| - 1] == calls;
      IdealAnswerAt(IdealStep(db, more[0].op, more[0].now).0, next, more[1..], n - 1);
      assert next + more[1..][..n - 1] == calls + more[..n];
    }
  }

  predicate Dead(expiresAt: Option<int>, now: real) { expiresAt.Some? && expiresAt.value as real < now }

  /** The answer to a call, given the calls before it: a client, a code or a token is shown
      exactly when it stands and has not expired. */
  ghost predicate Truth(before: seq<Call>, op: Op, now: real, answer: Answer) {
    match op
    case GetClient(id) =>
      && answer.SomeClient?
      && (answer.client.Some? ==> answer.client.value.clientId == id && Standing(before, PutClient(answer.client.value)))
      && (answer.client.None? ==> forall c | Standing(before, PutClient(c)) :: c.clientId != id)
    case TakeCode(k) =>
      && answer.SomeCode?
      && (answer.authCode.Some? ==>
            var c := answer.authCode.value; c.code == k && now <= c.expiresAt && Standing(before, PutCode(c)))
      && (answer.authCode.None? ==> forall c | Standing(before, PutCode(c)) && c.code == k :: c.expiresAt < now)
    case GetAccess(k) =>
      && answer.SomeToken?
      && (answer.token.Some? ==>
            var t := answer.token.value; t.token == k && !Dead(t.expiresAt, now) && Standing(before, PutAccess(t)))
      && (answer.token.None? ==> forall t | Standing(before, PutAccess(t)) && t.token == k :: Dead(t.expiresAt, now))
    case GetRefresh(k) =>
      && answer.SomeToken?
      && (answer.token.Some? ==>
            var t := answer.token.value; t.token == k && !Dead(t.expiresAt, now) && Standing(before, PutRefresh(t)))
      && (answer.token.None? ==> forall t | Standing(before, PutRefresh(t)) && t.token == k :: Dead(t.expiresAt, now))
    case Prune => answer.Removed?
    case _ => answer == Nothing
  }

  lemma {:induction false} IdealTruth(before: seq<Call>, op: Op, now: real)
    ensures Truth(before, op, now, IdealStep(IdealRun(before), op, now).1)
  {
    hide Standing, IdealRun;
    IdealKeyed(before);
    forall put: Op | put.PutClient? || put.PutCode? || put.PutAccess? || put.PutRefresh?
      ensures Standing(before, put) <==> Holds(IdealRun(before), put)
    {
      HoldsStanding(before, put);
    }
  }

  /** Every answer of every run of a new store, with a clock that never goes back. */
  lemma {:induction false} AnswersAreTrue(from: real, calls: seq<Call>, n: nat)
    requires Monotone(from, calls) && n < |calls|
    ensures Truth(calls[..n], calls[n].op, calls[n].now, Answers(NO_TABLES, calls)[n])
  {
    hide IdealStep, Step, Standing;
    SelfAgrees(from);
    StoreRefinesIdeal(NO_TABLES, NO_TABLES, from, calls);
    IdealAnswerAt(NO_TABLES, [], calls, n);
    assert [] + calls[..n] == calls[..n];
    IdealTruth(calls[..n], calls[n].op, calls[n].now);
    assert SameAnswer(Answers(NO_TABLES, calls)[n], IdealAnswers(NO_TABLES, calls)[n]);
  }

  lemma {:induction false} SelfAgrees(now: real)
    ensures Agree(NO_TABLES, NO_TABLES, now)
  {
  }

  // -- maintenance -------------------------------------------------------------

  function Rows(db: Tables): nat { |db.codes| + |db.access| + |db.refresh| }

  lemma {:induction false} FewerKeys<V>(m: map<string, V>, gone: set<string>)
    requires gone <= m.Keys
    ensures |m - gone| + |gone| == |m|
  {
    assert (m - gone).Keys == m.Keys - gone;
    assert |(m - gone).Keys| == |m.Keys| - |gone|;
  }

  /** `n` has exactly the rows of `m` that have not expired. */
  predicate LiveOf(m: map<string, Token>, n: map<string, Token>, now: real) {
    && (forall k | k in n :: k in m && n[k] == m[k])
    && (forall k | k in m :: k in n <==> !Dead(m[k].expiresAt, now))
  }

  predicate LiveCodesOf(m: map<string, AuthCode>, n: map<string, AuthCode>, now: real) {
    && (forall k | k in n :: k in m && n[k] == m[k])
    && (forall k | k in m :: k in n <==> now <= m[k].expiresAt)
  }

  lemma {:induction false} SweptTokens(m: map<string, Token>, now: real)
    ensures LiveOf(m, m - StaleTokens(m, now), now) && |m - StaleTokens(m, now)| + |StaleTokens(m, now)| == |m|
  {
    FewerKeys(m, StaleTokens(m, now));
  }

  lemma {:induction false} SweptCodes(m: map<string, AuthCode>, now: real)
    ensures LiveCodesOf(m, m - StaleCodes(m, now), now) && |m - StaleCodes(m, now)| + |StaleCodes(m, now)| == |m|
  {
    FewerKeys(m, StaleCodes(m, now));
  }

  /** Maintenance leaves exactly the rows that have not expired, and counts the others. */
  lemma {:induction false} PruneSweeps(db: Tables, now: real)
    ensures var r := Step(db, Prune, now);
            && r.0.clients == db.clients
            && LiveCodesOf(db.codes, r.0.codes, now)
            && LiveOf(db.access, r.0.access, now)
            && LiveOf(db.refresh, r.0.refresh, now)
            && r.1 == Removed(Rows(db) - Rows(r.0))
  {
    hide LiveOf, LiveCodesOf, StaleTokens, StaleCodes;
    SweptCodes(db.codes, now);
    SweptTokens(db.access, now);
    SweptTokens(db.refresh, now);
  }
}
