/** Rotation with load and exchange apart: what a second request may do in between, and
    the check that would make it harmless. */
module OAuthSplit {
  import opened Text
  import opened OAuthStore
  import opened OAuthProvider
  import opened OAuthRuns
  import opened OAuthLaws

  /** A whole request as before, or one half of a rotation. */
  datatype Move =
    | Whole(event: Event)
    | Load(name: string)
    | Exchange(client: Client, token: Token, requested: seq<string>, access: string, refresh: string)

  /** The state, and the refresh tokens that some request has loaded. */
  datatype Split = Split(s: State, loaded: set<Token>)

  /** The second half goes through for a token that was loaded and passes the checks of
      the route; the store is not asked again. */
  function MoveOn(cfg: Config, x: Split, m: Move, now: real): Split {
    match m
    case Whole(e) => Split(Apply(cfg, x.s, e, now).0, x.loaded)
    case Load(name) =>
      var r := LoadRefresh(x.s, name, now);
      Split(r.0, x.loaded + if r.1.Some? then {r.1.value} else {})
    case Exchange(client, t, requested, access, refresh) =>
      if t in x.loaded && t.clientId == client.clientId && Subset(requested, t.scopes)
      then Split(ExchangeRefresh(cfg, x.s, client, t, requested, access, refresh, now), x.loaded)
      else x
  }

  predicate FreshMove(cfg: Config, x: Split, m: Move) {
    match m
    case Whole(e) => Fresh(cfg, x.s, e)
    case Load(_) => true
    case Exchange(_, _, _, access, refresh) => FreshPair(cfg, x.s, access, refresh)
  }

  /** The delete of the exchange removes a row: what the code does not check. */
  predicate Found(x: Split, m: Move) {
    m.Exchange? ==> m.token.token in x.s.db.refresh
  }

  datatype TimedMove = TimedMove(move: Move, now: real)

  function SplitRun(cfg: Config, x: Split, ms: seq<TimedMove>): Split
    decreases |ms|
  {
    if ms == [] then x else SplitRun(cfg, MoveOn(cfg, x, ms[0].move, ms[0].now), ms[1..])
  }

  /** Every string minted is new, and every exchange finds its token still stored. */
  predicate FoundRun(cfg: Config, x: Split, ms: seq<TimedMove>)
    decreases |ms|
  {
    ms == [] || (FreshMove(cfg, x, ms[0].move) && Found(x, ms[0].move)
                 && FoundRun(cfg, MoveOn(cfg, x, ms[0].move, ms[0].now), ms[1..]))
  }

  /** A token once loaded is the one stored under its name, for as long as one is. */
  predicate Matches(s: State, loaded: set<Token>) {
    forall t | t in loaded :: t.token in Names(s.history) && (t.token in s.db.refresh ==> s.db.refresh[t.token] == t)
  }

  predicate SplitInv(cfg: Config, x: Split) { Inv(cfg, x.s) && Matches(x.s, x.loaded) }

  /** Rows of the refresh table are never rewritten: each was there, or has a new name. */
  predicate RowsStay(s: State, t: State) {
    && Grew(s.history, t.history)
    && forall k | k in t.db.refresh :: (k in s.db.refresh && t.db.refresh[k] == s.db.refresh[k]) || k !in Names(s.history)
  }

  lemma {:induction false} MatchesStay(s: State, t: State, loaded: set<Token>)
    requires Matches(s, loaded) && RowsStay(s, t)
    ensures Matches(t, loaded)
  {
    hide Names;
    NamesGrow(s.history, t.history);
  }

  lemma {:induction false} RefreshRows(cfg: Config, s: State, e: Event, now: real)
    requires Fresh(cfg, s, e)
    ensures RowsStay(s, Apply(cfg, s, e, now).0)
  {
    hide Names, Authorized, LoadAccess, ApprovedRids, LookupPending;
    ApplyApproves(cfg, s, e, now);
    match e
    case Authorize(_, _, _) => Quiet(cfg, s, e, now);
    case LoginGet(_) => Quiet(cfg, s, e, now);
    case LoginPost(_, _, _, _) => Quiet(cfg, s, e, now);
    case Present(_) => Quiet(cfg, s, e, now);
    case Revoke(client, token) => RevokeRows(cfg, s, client, token, now);
    case _ =>
  }

  lemma {:induction false} Quiet(cfg: Config, s: State, e: Event, now: real)
    requires e.Authorize? || e.LoginGet? || e.LoginPost? || e.Present?
    ensures Apply(cfg, s, e, now).0.db.refresh == s.db.refresh
  {
  }

  lemma {:induction false} RevokeRows(cfg: Config, s: State, client: Client, token: string, now: real)
    ensures forall k | k in RevokeOwn(cfg, s, client, token, now).db.refresh ::
              k in s.db.refresh && RevokeOwn(cfg, s, client, token, now).db.refresh[k] == s.db.refresh[k]
  {
  }

  lemma {:induction false} MoveKeeps(cfg: Config, x: Split, m: Move, now: real)
    requires SplitInv(cfg, x) && FreshMove(cfg, x, m) && Found(x, m)
    ensures SplitInv(cfg, MoveOn(cfg, x, m, now))
  {
    hide Inv, Names, Apply, Fresh, ExchangeRefresh, RowsStay;
    var y := MoveOn(cfg, x, m, now);
    match m
    case Whole(e) =>
      ApplyKeeps(cfg, x.s, e, now);
      RefreshRows(cfg, x.s, e, now);
      MatchesStay(x.s, y.s, x.loaded);
    case Load(name) =>
      LoadRefreshKeeps(cfg, x.s, name, now);
      LoadRows(x.s, name, now);
      MatchesStay(x.s, y.s, x.loaded);
      if name in x.s.db.refresh {
        SpentKnown(cfg, x.s, name);
        StoredNamed(cfg, x.s, name);
      }
    case Exchange(client, t, requested, access, refresh) =>
      if t in x.loaded && t.clientId == client.clientId && Subset(requested, t.scopes) {
        ExchangeKeeps(cfg, x.s, client, t.token, requested, access, refresh, now);
        ExchangeRows(cfg, x.s, client, t, requested, access, refresh, now);
        MatchesStay(x.s, y.s, x.loaded);
      }
  }

  lemma {:induction false} LoadRows(s: State, name: string, now: real)
    ensures RowsStay(s, LoadRefresh(s, name, now).0)
  {
    hide Names;
  }

  lemma {:induction false} ExchangeRows(cfg: Config, s: State, client: Client, t: Token, requested: seq<string>,
                                        access: string, refresh: string, now: real)
    requires refresh !in Names(s.history)
    ensures RowsStay(s, ExchangeRefresh(cfg, s, client, t, requested, access, refresh, now))
  {
    hide Names, ApprovedRids, Parents, Orderly;
    OneMore(s.history, Spent(t.token));
  }

  lemma {:induction false} StoredNamed(cfg: Config, s: State, name: string)
    requires Inv(cfg, s) && name in s.db.refresh
    ensures name in Names(s.history)
  {
    hide Names, Orderly, Origin, ScopesOf, ApprovedRids;
    RootedNamed(s.history, name, s.db.refresh[name].clientId, s.db.refresh[name].scopes);
  }

  lemma {:induction false} FoundRunKeeps(cfg: Config, x: Split, ms: seq<TimedMove>)
    requires SplitInv(cfg, x) && FoundRun(cfg, x, ms)
    ensures SplitInv(cfg, SplitRun(cfg, x, ms))
    decreases |ms|
  {
    hide SplitInv, MoveOn, FreshMove, Found;
    if ms != [] {
      MoveKeeps(cfg, x, ms[0].move, ms[0].now);
      FoundRunKeeps(cfg, MoveOn(cfg, x, ms[0].move, ms[0].now), ms[1..]);
    }
  }

  /** With the check, load and exchange need not be one step: in every run of a new
      service in which each exchange finds its token stored, however loads, exchanges
      and other requests interleave, at most one code or refresh token per approval is
      stored, and none that was spent. */
  lemma {:induction false} OneRefreshWhenFound(cfg: Config, ms: seq<TimedMove>, a: string, b: string)
    requires FoundRun(cfg, Split(INITIAL, {}), ms)
    ensures var s := SplitRun(cfg, Split(INITIAL, {}), ms).s;
            a in Exchangeable(s.db) && b in Exchangeable(s.db) ==>
              && Origin(s.history, a).Some? && Origin(s.history, b).Some?
              && (Origin(s.history, a).value.rid == Origin(s.history, b).value.rid ==> a == b)
              && !Recorded(s.history, Spent(a))
  {
    hide Origin, ScopesOf, Names, Orderly, SplitRun, FoundRun, ApprovedRids;
    InitialInv(cfg);
    FoundRunKeeps(cfg, Split(INITIAL, {}), ms);
  }

  /** And no exchange of such a run uses a token that was rotated or revoked before. */
  lemma {:induction false} NoSpentExchange(cfg: Config, ms: seq<TimedMove>, m: Move)
    requires FoundRun(cfg, Split(INITIAL, {}), ms) && m.Exchange?
    ensures var x := SplitRun(cfg, Split(INITIAL, {}), ms);
            Found(x, m) ==> !Recorded(x.s.history, Spent(m.token.token))
  {
    hide Origin, ScopesOf, Names, Orderly, SplitRun, FoundRun, ApprovedRids;
    InitialInv(cfg);
    FoundRunKeeps(cfg, Split(INITIAL, {}), ms);
  }

  /** Without the check the second of two exchanges goes through though its row is gone. */
  lemma {:induction false} ForkNotFound(cfg: Config, s: State, client: Client, name: string, a1: string, r1: string,
                                        a2: string, r2: string, now: real)
    requires Inv(cfg, s) && name in s.db.refresh && !TokenExpired(s.db.refresh[name], now)
    requires s.db.refresh[name].clientId == client.clientId
    requires r1 != r2 && r1 !in Names(s.history) && r2 !in Names(s.history)
    requires a1 != r2 && a2 != r1 && a1 !in Names(s.history) && a2 !in Names(s.history)
    ensures var t := s.db.refresh[name];
            var loaded := MoveOn(cfg, MoveOn(cfg, Split(s, {}), Load(name), now), Load(name), now);
            var first := MoveOn(cfg, loaded, Exchange(client, t, [], a1, r1), now);
            var second := MoveOn(cfg, first, Exchange(client, t, [], a2, r2), now);
            && Found(loaded, Exchange(client, t, [], a1, r1))
            && !Found(first, Exchange(client, t, [], a2, r2))
            && r1 in second.s.db.refresh && r2 in second.s.db.refresh
            && Origin(second.s.history, r1) == Origin(s.history, name) == Origin(second.s.history, r2)
  {
    hide Names, Origin, ScopesOf, Orderly, ApprovedRids, OnePerApproval, PendingOpen, CodesRooted, Apart;
    InterleavedRotationForks(cfg, s, client, name, a1, r1, a2, r2, now);
    StoredNamed(cfg, s, name);
    assert s.db.refresh[name].token == name;
  }
}
