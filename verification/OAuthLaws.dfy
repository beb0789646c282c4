/** What every run of the authorization server promises, and where the promises end. */
module OAuthLaws {
  import opened Text
  import opened OAuthStore
  import opened OAuthProvider
  import opened OAuthRuns

  // -- runs --------------------------------------------------------------------

  datatype Timed = Timed(event: Event, now: real)

  function Run(cfg: Config, s: State, es: seq<Timed>): State
    decreases |es|
  {
    if es == [] then s else Run(cfg, Apply(cfg, s, es[0].event, es[0].now).0, es[1..])
  }

  function Replies(cfg: Config, s: State, es: seq<Timed>): (rs: seq<Reply>)
    ensures |rs| == |es|
    decreases |es|
  {
    if es == [] then []
    else
      var r := Apply(cfg, s, es[0].event, es[0].now);
      [r.1] + Replies(cfg, r.0, es[1..])
  }

  /** Every string minted along the run is new when it is minted. */
  predicate FreshRun(cfg: Config, s: State, es: seq<Timed>)
    decreases |es|
  {
    es == [] || (Fresh(cfg, s, es[0].event) && FreshRun(cfg, Apply(cfg, s, es[0].event, es[0].now).0, es[1..]))
  }

  lemma {:induction false} RunKeeps(cfg: Config, s: State, es: seq<Timed>)
    requires Inv(cfg, s) && FreshRun(cfg, s, es)
    ensures Inv(cfg, Run(cfg, s, es))
    decreases |es|
  {
    hide Inv, Fresh, Apply;
    if es != [] {
      ApplyKeeps(cfg, s, es[0].event, es[0].now);
      RunKeeps(cfg, Apply(cfg, s, es[0].event, es[0].now).0, es[1..]);
    }
  }

  lemma {:induction false} InitialInv(cfg: Config)
    ensures Inv(cfg, INITIAL)
  {
  }

  // -- where tokens come from --------------------------------------------------

  lemma {:induction false} ScopesWithinGrant(h: History, n: string)
    requires Orderly(h) && Origin(h, n).Some? && ScopesOf(h, n).Some?
    ensures Subset(ScopesOf(h, n).value, Origin(h, n).value.scopes)
    decreases h
  {
    hide Names, ApprovedRids, Parents;
    var init, f := h.earlier, h.fact;
    if f.Approved? && f.code == n {
    } else if f.Issued? && (f.access == n || f.refresh == n) {
      ScopesWithinGrant(init, f.parent);
    } else {
      ScopesWithinGrant(init, n);
    }
  }

  /** What one event adds to the approved requests: the request of a login POST that
      was still pending and came with the server's own, non-empty passphrase. */
  predicate Approves(cfg: Config, s: State, e: Event, now: real) {
    && e.LoginPost? && cfg.passphrase != "" && e.supplied == cfg.passphrase
    && e.rid in s.pending && !Overdue(s.pending[e.rid], now) && !Overdue(s.pending[e.rid], e.later)
  }

  /** The history only grew, and approved nothing. */
  predicate Unapproved(h: History, g: History) {
    Grew(h, g) && ApprovedRids(g) == ApprovedRids(h)
  }

  lemma {:induction false} LoginApproves(cfg: Config, s: State, e: Event, now: real)
    requires e.LoginPost?
    ensures var r := Apply(cfg, s, e, now);
            && Grew(s.history, r.0.history)
            && ApprovedRids(r.0.history) == ApprovedRids(s.history) + (if Approves(cfg, s, e, now) then {e.rid} else {})
            && (Approves(cfg, s, e, now) <==> r.1.Login? && r.1.result.Redirected?)
  {
    hide ApprovedRids, GrantedScopes, MintCode, Step;
    var looked := LookupPending(s, e.rid, now);
    assert looked.0.history == s.history;
    if Approves(cfg, s, e, now) {
      var p := s.pending[e.rid];
      assert e.rid in looked.0.pending && looked.0.pending[e.rid] == p;
      OneMore(s.history, Approved(e.rid, p.client.clientId, MintCode(cfg, p, e.code, e.later).scopes, e.code));
    } else if looked.1.Some? && cfg.passphrase != "" && e.supplied == cfg.passphrase {
      assert e.rid !in StillPending(looked.0.pending, e.later);
    }
  }

  lemma {:induction false} CodeGrantApproves(cfg: Config, s: State, e: Event, now: real)
    requires e.CodeGrant?
    ensures Unapproved(s.history, Apply(cfg, s, e, now).0.history) && !Apply(cfg, s, e, now).1.Login?
  {
    hide ApprovedRids, Step;
    var r := LoadCode(s, e.code, now);
    OneMore(s.history, Spent(e.code));
    if r.1.Some? {
      OneMore(r.0.history, Issued(r.1.value.code, r.1.value.scopes, e.access, e.refresh));
    }
  }

  lemma {:induction false} RefreshGrantApproves(cfg: Config, s: State, e: Event, now: real)
    requires e.RefreshGrant?
    ensures Unapproved(s.history, Apply(cfg, s, e, now).0.history) && !Apply(cfg, s, e, now).1.Login?
  {
    hide ApprovedRids, Step;
    var r := LoadRefresh(s, e.token, now);
    if r.1.Some? {
      var t := r.1.value;
      OneMore(s.history, Spent(t.token));
      OneMore(Then(s.history, Spent(t.token)), Issued(t.token, ScopesOr(e.requested, t.scopes), e.access, e.refresh));
    }
  }

  lemma {:induction false} RevokeApproves(cfg: Config, s: State, e: Event, now: real)
    requires e.Revoke?
    ensures Unapproved(s.history, Apply(cfg, s, e, now).0.history) && !Apply(cfg, s, e, now).1.Login?
  {
    hide ApprovedRids, Step;
    var a := LoadAccess(cfg, s, e.token, now);
    var r := if a.1.Some? then a else LoadRefresh(a.0, e.token, now);
    if r.1.Some? {
      OneMore(s.history, Spent(r.1.value.token));
    }
  }

  lemma {:induction false} RestApproves(cfg: Config, s: State, e: Event, now: real)
    requires e.Register? || e.Authorize? || e.LoginGet? || e.Present? || e.Maintain?
    ensures Unapproved(s.history, Apply(cfg, s, e, now).0.history) && !Apply(cfg, s, e, now).1.Login?
  {
    hide ApprovedRids, Step, StillPending;
    if e.Authorize? {
      OneMore(s.history, Parked(e.rid));
    }
  }

  /** An event approves a request exactly when it is a login POST answered with a
      redirect; no event takes a fact back. */
  lemma {:induction false} ApplyApproves(cfg: Config, s: State, e: Event, now: real)
    ensures ApprovedRids(Apply(cfg, s, e, now).0.history)
         == ApprovedRids(s.history) + (if Approves(cfg, s, e, now) then {e.rid} else {})
    ensures Grew(s.history, Apply(cfg, s, e, now).0.history)
    ensures Approves(cfg, s, e, now) <==> Apply(cfg, s, e, now).1.Login? && Apply(cfg, s, e, now).1.result.Redirected?
  {
    hide ApprovedRids, Apply;
    match e
    case LoginPost(_, _, _, _) => LoginApproves(cfg, s, e, now);
    case CodeGrant(_, _, _, _, _) => CodeGrantApproves(cfg, s, e, now);
    case RefreshGrant(_, _, _, _, _) => RefreshGrantApproves(cfg, s, e, now);
    case Revoke(_, _) => RevokeApproves(cfg, s, e, now);
    case _ => RestApproves(cfg, s, e, now);
  }

  /** The requests that login POSTs approved along a run. */
  function Logins(cfg: Config, s: State, es: seq<Timed>): set<string>
    decreases |es|
  {
    if es == [] then {}
    else
      var e, now := es[0].event, es[0].now;
      (if Approves(cfg, s, e, now) then {e.rid} else {}) + Logins(cfg, Apply(cfg, s, e, now).0, es[1..])
  }

  lemma {:induction false} RunApproves(cfg: Config, s: State, es: seq<Timed>)
    ensures ApprovedRids(Run(cfg, s, es).history) == ApprovedRids(s.history) + Logins(cfg, s, es)
    ensures Grew(s.history, Run(cfg, s, es).history)
    decreases |es|
  {
    hide Apply, Approves, ApprovedRids;
    if es != [] {
      ApplyApproves(cfg, s, es[0].event, es[0].now);
      var t := Apply(cfg, s, es[0].event, es[0].now).0;
      RunApproves(cfg, t, es[1..]);
      GrewOn(s.history, t.history, Run(cfg, s, es).history);
    }
  }

  /** A stored token descends from one approval: of its own client, wide enough for
      its scopes, and given by a login POST of the run with the right passphrase. */
  predicate DescendsFromLogin(h: History, t: Token, logins: set<string>) {
    var g := Origin(h, t.token);
    && g.Some? && g.value.rid in logins
    && g.value.clientId == t.clientId && Subset(t.scopes, g.value.scopes)
  }

  /** In every run of a new service, through any interleaving of rotations,
      revocations, expiry and maintenance, every stored access and refresh token
      descends from a login-approved request. */
  lemma {:induction false} EveryTokenDescends(cfg: Config, es: seq<Timed>, k: string)
    requires FreshRun(cfg, INITIAL, es)
    ensures var s := Run(cfg, INITIAL, es);
            && (k in s.db.access ==>
                  s.db.access[k].token == k && DescendsFromLogin(s.history, s.db.access[k], Logins(cfg, INITIAL, es)))
            && (k in s.db.refresh ==>
                  s.db.refresh[k].token == k && DescendsFromLogin(s.history, s.db.refresh[k], Logins(cfg, INITIAL, es)))
  {
    hide Origin, ScopesOf, Names, Orderly, Run, Logins, FreshRun, ApprovedRids;
    InitialInv(cfg);
    RunKeeps(cfg, INITIAL, es);
    RunApproves(cfg, INITIAL, es);
    NoApprovals();
    var s := Run(cfg, INITIAL, es);
    if k in s.db.access || k in s.db.refresh {
      OriginNamed(s.history, k);
      ScopesWithinGrant(s.history, k);
    }
  }

  lemma {:induction false} NoApprovals()
    ensures ApprovedRids(Begun) == {}
  {
  }

  /** At any time, at most one code or refresh token per approval is stored. */
  lemma {:induction false} OneRefreshPerApproval(cfg: Config, es: seq<Timed>, a: string, b: string)
    requires FreshRun(cfg, INITIAL, es)
    requires var s := Run(cfg, INITIAL, es);
             && a in Exchangeable(s.db) && b in Exchangeable(s.db)
             && (Origin(s.history, a).None? || Origin(s.history, b).None?
                 || Origin(s.history, a).value.rid == Origin(s.history, b).value.rid)
    ensures a == b
  {
    hide Origin, ScopesOf, Names, Orderly, Run, FreshRun, ApprovedRids;
    InitialInv(cfg);
    RunKeeps(cfg, INITIAL, es);
  }

  // -- consumption is permanent ------------------------------------------------

  /** A spent name is never shown again, by any later load. */
  lemma {:induction false} SpentIsGone(cfg: Config, s: State, es: seq<Timed>, n: string, now: real)
    requires Inv(cfg, s) && FreshRun(cfg, s, es) && Recorded(s.history, Spent(n))
    ensures var t := Run(cfg, s, es);
            && LoadCode(t, n, now).1 == None
            && LoadRefresh(t, n, now).1 == None
            && (n != cfg.staticToken ==> LoadAccess(cfg, t, n, now).1 == None)
  {
    hide Origin, ScopesOf, Names, Orderly, Run, FreshRun, ApprovedRids;
    RunKeeps(cfg, s, es);
    RunApproves(cfg, s, es);
    var t := Run(cfg, s, es);
    GrewRecorded(s.history, t.history, Spent(n));
  }

  /** What spends a name: loading a code, whatever comes of it; rotating a refresh
      token; revoking a token of one's own. */
  lemma {:induction false} WhatSpends(cfg: Config, s: State, e: Event, now: real)
    requires Inv(cfg, s)
    ensures var r := Apply(cfg, s, e, now);
            && (e.CodeGrant? && e.code in s.db.codes ==> Recorded(r.0.history, Spent(e.code)))
            && (r.1.Granted? ==> Recorded(r.0.history, Spent(r.1.parent)) && r.1.parent in Exchangeable(s.db))
            && (e.Revoke? && e.token in s.db.refresh && e.token !in s.db.access && e.token != cfg.staticToken
                && s.db.refresh[e.token].clientId == e.client.clientId && !TokenExpired(s.db.refresh[e.token], now)
                ==> Recorded(r.0.history, Spent(e.token)))
            && (e.Revoke? && e.token in s.db.access && e.token != cfg.staticToken
                && s.db.access[e.token].clientId == e.client.clientId && !TokenExpired(s.db.access[e.token], now)
                ==> Recorded(r.0.history, Spent(e.token)))
  {
    hide Origin, ScopesOf, Names, Orderly, ApprovedRids;
  }

  lemma {:induction false} NoLaterGrant(cfg: Config, s: State, es: seq<Timed>, p: string)
    requires Inv(cfg, s) && FreshRun(cfg, s, es) && Recorded(s.history, Spent(p))
    ensures forall j | 0 <= j < |es| :: !(Replies(cfg, s, es)[j].Granted? && Replies(cfg, s, es)[j].parent == p)
    decreases |es|
  {
    hide Inv, Fresh, Apply;
    if es != [] {
      var e, now := es[0].event, es[0].now;
      var s1 := Apply(cfg, s, e, now).0;
      ApplyKeeps(cfg, s, e, now);
      ApplyApproves(cfg, s, e, now);
      WhatSpends(cfg, s, e, now);
      SpentNotExchangeable(cfg, s, p);
      GrewRecorded(s.history, s1.history, Spent(p));
      NoLaterGrant(cfg, s1, es[1..], p);
      var rs, rest := Replies(cfg, s, es), Replies(cfg, s1, es[1..]);
      assert forall j | 0 < j < |es| :: rs[j] == rest[j - 1];
    }
  }

  lemma {:induction false} SpentNotExchangeable(cfg: Config, s: State, p: string)
    requires Inv(cfg, s) && Recorded(s.history, Spent(p))
    ensures p !in Exchangeable(s.db)
  {
    hide Origin, ScopesOf, Names, Orderly, ApprovedRids;
  }

  /** A code is exchanged at most once, and so is a refresh token: no run grants twice
      on the same one. */
  lemma {:induction false} GrantedOnce(cfg: Config, s: State, es: seq<Timed>, i: nat, j: nat)
    requires Inv(cfg, s) && FreshRun(cfg, s, es) && i < j < |es|
    requires Replies(cfg, s, es)[i].Granted? && Replies(cfg, s, es)[j].Granted?
    ensures Replies(cfg, s, es)[i].parent != Replies(cfg, s, es)[j].parent
    decreases |es|
  {
    hide Inv, Fresh, Apply;
    var e, now := es[0].event, es[0].now;
    var s1 := Apply(cfg, s, e, now).0;
    ApplyKeeps(cfg, s, e, now);
    var rs, rest := Replies(cfg, s, es), Replies(cfg, s1, es[1..]);
    assert rs[j] == rest[j - 1];
    if i == 0 {
      WhatSpends(cfg, s, e, now);
      NoLaterGrant(cfg, s1, es[1..], rs[0].parent);
    } else {
      assert rs[i] == rest[i - 1];
      GrantedOnce(cfg, s1, es[1..], i - 1, j - 1);
    }
  }

  predicate ApprovedAt(cfg: Config, s: State, es: seq<Timed>, j: nat, rid: string)
    requires j < |es|
  {
    es[j].event.LoginPost? && es[j].event.rid == rid
    && Replies(cfg, s, es)[j].Login? && Replies(cfg, s, es)[j].result.Redirected?
  }

  lemma {:induction false} NoLaterApproval(cfg: Config, s: State, es: seq<Timed>, rid: string)
    requires Inv(cfg, s) && FreshRun(cfg, s, es) && rid in ApprovedRids(s.history)
    ensures forall j | 0 <= j < |es| :: !ApprovedAt(cfg, s, es, j, rid)
    decreases |es|
  {
    hide Inv, Fresh, Apply, ApprovedRids;
    if es != [] {
      var e, now := es[0].event, es[0].now;
      var s1 := Apply(cfg, s, e, now).0;
      ApplyKeeps(cfg, s, e, now);
      ApplyApproves(cfg, s, e, now);
      ApprovedNotPending(cfg, s, rid);
      NoLaterApproval(cfg, s1, es[1..], rid);
      forall j | 0 < j < |es|
        ensures !ApprovedAt(cfg, s, es, j, rid)
      {
        assert Replies(cfg, s, es)[j] == Replies(cfg, s1, es[1..])[j - 1];
        assert !ApprovedAt(cfg, s1, es[1..], j - 1, rid);
      }
    }
  }

  lemma {:induction false} ApprovedNotPending(cfg: Config, s: State, rid: string)
    requires Inv(cfg, s) && rid in ApprovedRids(s.history)
    ensures rid !in s.pending
  {
    hide Origin, ScopesOf, Names, Orderly, ApprovedRids;
  }

  /** A request id yields at most one code along any run. */
  lemma {:induction false} ApprovedOnce(cfg: Config, s: State, es: seq<Timed>, i: nat, j: nat, rid: string)
    requires Inv(cfg, s) && FreshRun(cfg, s, es) && i < j < |es|
    requires ApprovedAt(cfg, s, es, i, rid)
    ensures !ApprovedAt(cfg, s, es, j, rid)
    decreases |es|
  {
    hide Inv, Fresh, Apply, ApprovedRids;
    var e, now := es[0].event, es[0].now;
    var s1 := Apply(cfg, s, e, now).0;
    ApplyKeeps(cfg, s, e, now);
    assert Replies(cfg, s, es)[j] == Replies(cfg, s1, es[1..])[j - 1];
    if i == 0 {
      ApplyApproves(cfg, s, e, now);
      NoLaterApproval(cfg, s1, es[1..], rid);
    } else {
      assert Replies(cfg, s, es)[i] == Replies(cfg, s1, es[1..])[i - 1];
      assert ApprovedAt(cfg, s1, es[1..], i - 1, rid);
      ApprovedOnce(cfg, s1, es[1..], i - 1, j - 1, rid);
    }
    assert ApprovedAt(cfg, s, es, j, rid) ==> ApprovedAt(cfg, s1, es[1..], j - 1, rid);
  }

  /** `n` is `a`, or was minted on it through a chain of exchanges. */
  predicate Descends(h: History, n: string, a: string)
    decreases h
  {
    n == a
    || (h.Then?
        && var init, f := h.earlier, h.fact;
           if f.Issued? && (f.access == n || f.refresh == n) then Descends(init, f.parent, a) else Descends(init, n, a))
  }

  lemma {:induction false} ScopesNamed(h: History, n: string)
    requires ScopesOf(h, n).Some?
    ensures n in Names(h)
    decreases h
  {
    var init, f := h.earlier, h.fact;
    if !(f.Approved? && f.code == n) && !(f.Issued? && (f.access == n || f.refresh == n)) {
      ScopesNamed(init, n);
    }
  }

  /** A name the history does not mention descends from itself alone. */
  lemma {:induction false} NewDescends(h: History, n: string, a: string)
    requires n !in Names(h) && Descends(h, n, a)
    ensures n == a
    decreases h
  {
    if n != a {
      NewDescends(h.earlier, n, a);
    }
  }

  /** Along a chain of exchanges of an orderly history, scopes only shrink. */
  lemma {:induction false} ChainShrinks(h: History, n: string, a: string)
    requires Orderly(h) && Descends(h, n, a) && ScopesOf(h, n).Some?
    ensures ScopesOf(h, a).Some? && Subset(ScopesOf(h, n).value, ScopesOf(h, a).value)
    decreases h
  {
    hide Names, ApprovedRids, Parents, Origin;
    if n != a {
      var init, f := h.earlier, h.fact;
      if f.Issued? && (f.access == n || f.refresh == n) {
        ChainShrinks(init, f.parent, a);
      } else {
        if f.Approved? && f.code == n {
          NewDescends(init, n, a);
        }
        ChainShrinks(init, n, a);
      }
      ScopesNamed(init, a);
    }
  }

  /** In every run, a stored token carries no scope that any code or refresh token it
      descends from did not carry. */
  lemma {:induction false} RotationShrinksScopes(cfg: Config, es: seq<Timed>, k: string, a: string)
    requires FreshRun(cfg, INITIAL, es)
    requires var s := Run(cfg, INITIAL, es); (k in s.db.access || k in s.db.refresh) && Descends(s.history, k, a)
    ensures var s := Run(cfg, INITIAL, es);
            && ScopesOf(s.history, a).Some?
            && (k in s.db.access ==> Subset(s.db.access[k].scopes, ScopesOf(s.history, a).value))
            && (k in s.db.refresh ==> Subset(s.db.refresh[k].scopes, ScopesOf(s.history, a).value))
  {
    hide Origin, ScopesOf, Names, Orderly, Run, FreshRun, ApprovedRids, Descends;
    InitialInv(cfg);
    RunKeeps(cfg, INITIAL, es);
    ChainShrinks(Run(cfg, INITIAL, es).history, k, a);
  }

  // -- where the promises end --------------------------------------------------

  /** Rotation spends the presented refresh token only: every access token already
      issued is still accepted until it expires. */
  lemma {:induction false} AccessOutlivesRotation(cfg: Config, s: State, e: Event, now: real, k: string, later: real)
    requires Inv(cfg, s) && e.RefreshGrant? && Fresh(cfg, s, e)
    requires k in s.db.access && k != cfg.staticToken
    ensures LoadAccess(cfg, Apply(cfg, s, e, now).0, k, later).1 == LoadAccess(cfg, s, k, later).1
  {
    hide Origin, ScopesOf, Orderly, ApprovedRids, Names, CodesRooted, OnePerApproval, PendingOpen, Rooted, LoadAccess;
    RootedNamed(s.history, k, s.db.access[k].clientId, s.db.access[k].scopes);
    SameAccess(cfg, s, Apply(cfg, s, e, now).0, k, later);
  }

  /** A bearer is judged by its own row. */
  lemma {:induction false} SameAccess(cfg: Config, s: State, t: State, k: string, now: real)
    requires k in s.db.access && k in t.db.access && t.db.access[k] == s.db.access[k]
    ensures LoadAccess(cfg, t, k, now).1 == LoadAccess(cfg, s, k, now).1
  {
  }

  lemma {:induction false} RevokedRefresh(cfg: Config, s: State, token: string, now: real)
    requires TokensRooted(s.history, s.db.refresh) && token !in s.db.access && token != cfg.staticToken
    ensures var a := LoadAccess(cfg, s, token, now);
            var r := LoadRefresh(a.0, token, now);
            && a.1.None? && a.0.db.access == s.db.access && r.0.db.access == s.db.access
            && (r.1.Some? ==> r.1.value.token == token)
  {
    hide Rooted;
  }

  /** Revoking a refresh token leaves the access tokens of the same approval too. */
  lemma {:induction false} AccessOutlivesRevocation(cfg: Config, s: State, client: Client, token: string, now: real, k: string, later: real)
    requires Inv(cfg, s) && token !in s.db.access && token != cfg.staticToken
    requires k in s.db.access && k != cfg.staticToken
    ensures LoadAccess(cfg, Apply(cfg, s, Revoke(client, token), now).0, k, later).1 == LoadAccess(cfg, s, k, later).1
  {
    hide Origin, ScopesOf, Orderly, ApprovedRids, Names, CodesRooted, OnePerApproval, PendingOpen, Rooted;
    hide LoadAccess, LoadRefresh, TokensRooted, Apart;
    RevokedRefresh(cfg, s, token, now);
    assert Apply(cfg, s, Revoke(client, token), now).0.db.access == s.db.access - {token} == s.db.access
        || Apply(cfg, s, Revoke(client, token), now).0.db.access == s.db.access;
    SameAccess(cfg, s, Apply(cfg, s, Revoke(client, token), now).0, k, later);
  }

  /** Rotation needs load and exchange to be one step: the exchange does not check that
      its delete removed a row. If two requests load the same refresh token before
      either exchanges it, both succeed, and one approval has two stored refresh
      tokens. */
  lemma {:induction false} InterleavedRotationForks(cfg: Config, s: State, client: Client, token: string,
                                                    a1: string, r1: string, a2: string, r2: string, now: real)
    requires Inv(cfg, s) && token in s.db.refresh && !TokenExpired(s.db.refresh[token], now)
    requires r1 != r2 && r1 !in Names(s.history) && r2 !in Names(s.history)
    requires a1 != r2 && a2 != r1 && a1 !in Names(s.history) && a2 !in Names(s.history)
    ensures var first := LoadRefresh(s, token, now);
            var second := LoadRefresh(first.0, token, now);
            && first.1.Some? && second.1.Some?
            && var t := ExchangeRefresh(cfg, second.0, client, first.1.value, [], a1, r1, now);
               var u := ExchangeRefresh(cfg, t, client, second.1.value, [], a2, r2, now);
               && r1 in u.db.refresh && r2 in u.db.refresh
               && Origin(u.history, r1) == Origin(s.history, token) == Origin(u.history, r2)
  {
    hide Origin, ScopesOf, Names, Orderly, ApprovedRids, CodesRooted, OnePerApproval, PendingOpen, Apart;
    var rt := s.db.refresh[token];
    var h := s.history;
    RootedNamed(h, token, rt.clientId, rt.scopes);
    var h1 := Then(h, Spent(token));
    var h2 := Then(h1, Issued(token, ScopesOr([], rt.scopes), a1, r1));
    var h3 := Then(h2, Spent(token));
    var h4 := Then(h3, Issued(token, ScopesOr([], rt.scopes), a2, r2));
    OriginOneMore(h, Spent(token), token);
    OriginOneMore(h1, Issued(token, ScopesOr([], rt.scopes), a1, r1), token);
    OriginOneMore(h1, Issued(token, ScopesOr([], rt.scopes), a1, r1), r1);
    OriginOneMore(h2, Spent(token), token);
    OriginOneMore(h2, Spent(token), r1);
    OriginOneMore(h3, Issued(token, ScopesOr([], rt.scopes), a2, r2), r1);
    OriginOneMore(h3, Issued(token, ScopesOr([], rt.scopes), a2, r2), r2);
  }
}
