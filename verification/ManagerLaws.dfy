/** What the target registry keeps over whole sessions. */
module ManagerLaws {
  import opened Text
  import opened Manager

  datatype Event = Get(asked: Option<string>) | Use(name: string, error: Option<string>) | Close

  function Step(s: State, e: Event): State {
    match e
    case Get(name) => Got(s, name).0
    case Use(name, error) => Used(s, name, error).0
    case Close => Closed(s)
  }

  function Run(s: State, es: seq<Event>): State
    decreases |es|
  {
    if es == [] then s else Run(Step(s, es[0]), es[1..])
  }

  // -- conservation of pools ---------------------------------------------------

  predicate CachedOpen(s: State) {
    forall n | n in s.targets :: s.targets[n] < |s.pools| && s.pools[s.targets[n]] == n && s.closed[s.targets[n]] == 0
  }

  predicate OpenCached(s: State) {
    forall p: nat | p < |s.pools| && s.closed[p] == 0 :: s.pools[p] in s.targets && s.targets[s.pools[p]] == p
  }

  predicate ClosedOnce(s: State) {
    forall p | p in s.closed :: p < |s.pools| && s.closed[p] == 1
  }

  /** Every pool ever opened is cached under its own name, or was closed, once. */
  predicate Conserved(s: State) { CachedOpen(s) && OpenCached(s) && ClosedOnce(s) }

  predicate Inv(s: State) { Conserved(s) && s.current != "" && "" !in s.targets }

  lemma {:induction false} GotKeeps(s: State, name: Option<string>)
    requires Inv(s)
    ensures Inv(Got(s, name).0)
    ensures var g := Got(s, name); g.1.name in g.0.targets && g.0.targets[g.1.name] == g.1.pool && g.0.current == s.current
  {
    var n := Resolve(s, name);
    if n !in s.targets {
      assert s.closed[|s.pools|] == 0;
    }
  }

  lemma {:induction false} DroppedKeeps(s: State, name: string)
    requires Inv(s) && name in s.targets
    ensures Inv(Dropped(s, name, s.targets[name]))
  {
    var t := Dropped(s, name, s.targets[name]);
    forall n | n in t.targets
      ensures t.targets[n] != s.targets[name]
    {
      assert s.pools[s.targets[n]] == n && s.pools[s.targets[name]] == name;
    }
  }

  /** A switch keeps the registry in order exactly when the name is not empty. */
  lemma {:induction false} UseKeeps(s: State, name: string, error: Option<string>)
    requires Inv(s)
    ensures Inv(Used(s, name, error).0) <==> name != ""
  {
    GotKeeps(s, Some(name));
    var g := Got(s, Some(name));
    if Failed(error) {
      if name == "" {
        EmptyNameStrands(s, error);
      } else if name !in s.targets {
        DroppedKeeps(g.0, name);
      }
    }
  }

  /** Switching to the empty name probes the current target, yet counts as new: a
      failed probe closes the current pool and leaves it cached, and closing the
      registry then closes it again. */
  lemma {:induction false} EmptyNameStrands(s: State, error: Option<string>)
    requires Inv(s) && Failed(error)
    ensures var t := Used(s, "", error).0;
            && t.current == s.current && s.current in t.targets
            && t.closed[t.targets[s.current]] == 1
            && Got(t, None) == (t, Target(s.current, t.targets[s.current]))
            && !Conserved(t)
            && Closed(t).closed[t.targets[s.current]] == 2
  {
    GotKeeps(s, Some(""));
    var g := Got(s, Some("")).0;
    var t := Used(s, "", error).0;
    assert t.targets == g.targets;
    assert t.targets[s.current] in PoolsOf(t.targets, t.targets.Keys);
  }

  lemma {:induction false} ClosedKeeps(s: State)
    requires Inv(s)
    ensures Inv(Closed(s)) && Closed(s).targets == map[]
  {
    var t := Closed(s);
    forall p: nat | p < |s.pools|
      ensures t.closed[p] == 1
    {
      if s.closed[p] == 0 {
        assert s.targets[s.pools[p]] in PoolsOf(s.targets, s.targets.Keys);
      } else {
        assert p in s.closed;
        if p in PoolsOf(s.targets, s.targets.Keys) {
          NoCachedClosed(s, p);
        }
      }
    }
    forall p | p in t.closed
      ensures p < |s.pools|
    {
      if p !in s.closed {
        assert p in PoolsOf(s.targets, s.targets.Keys);
      }
    }
  }

  lemma {:induction false} NoCachedClosed(s: State, p: nat)
    requires CachedOpen(s) && p in PoolsOf(s.targets, s.targets.Keys)
    ensures s.closed[p] == 0
  {
  }

  predicate Named(es: seq<Event>) { forall e | e in es :: e.Use? ==> e.name != "" }

  lemma {:induction false} RunKeeps(s: State, es: seq<Event>)
    requires Inv(s) && Named(es)
    ensures Inv(Run(s, es))
    decreases |es|
  {
    hide Inv, Step;
    if es != [] {
      StepKeeps(s, es[0]);
      RunKeeps(Step(s, es[0]), es[1..]);
    }
  }

  lemma {:induction false} StepKeeps(s: State, e: Event)
    requires Inv(s) && (e.Use? ==> e.name != "")
    ensures Inv(Step(s, e))
  {
    hide Inv;
    match e
    case Get(name) => GotKeeps(s, name);
    case Use(name, error) => UseKeeps(s, name, error);
    case Close => ClosedKeeps(s);
  }

  /** In every session that switches to named databases only, every pool ever opened
      is cached once, under its own name, or closed once, and never both. */
  lemma {:induction false} PoolsConserved(default: string, es: seq<Event>, p: nat)
    requires default != "" && Named(es) && p < |Run(Initial(default), es).pools|
    ensures var s := Run(Initial(default), es);
            && s.closed[p] <= 1
            && (s.closed[p] == 0 <==> exists n :: n in s.targets && s.targets[n] == p)
            && (forall n | n in s.targets && s.targets[n] == p :: n == s.pools[p])
  {
    hide Run;
    assert Inv(Initial(default));
    RunKeeps(Initial(default), es);
  }

  // -- the target handed back --------------------------------------------------

  /** Whatever the registry holds, a named target is that of its name: the one cached, or a
      new one that is cached from then on. */
  lemma {:induction false} GotNamed(s: State, name: string)
    requires name != ""
    ensures var g := Got(s, Some(name));
            && g.1.name == name && name in g.0.targets && g.0.targets[name] == g.1.pool
            && (if name in s.targets then g.0 == s else g.1.pool == |s.pools| && g.0.pools == s.pools + [name])
            && (forall n | n in s.targets :: n in g.0.targets && g.0.targets[n] == s.targets[n])
            && g.0.current == s.current && g.0.closed == s.closed
    ensures s.current != "" ==> Got(s, None) == Got(s, Some(s.current)) && Got(s, Some("")) == Got(s, None)
  {
  }

  /** In every session, asking for a database hands back an open pool of that very
      database, cached under its name; asking for none, one of the current database. */
  lemma {:induction false} HandsBackItsOwn(default: string, es: seq<Event>, asked: Option<string>)
    requires default != "" && Named(es)
    ensures var s := Run(Initial(default), es);
            var n := if asked.Some? && asked.value != "" then asked.value else s.current;
            var g := Got(s, asked);
            && g.1.name == n && n in g.0.targets && g.0.targets[n] == g.1.pool
            && g.1.pool < |g.0.pools| && g.0.pools[g.1.pool] == n && g.0.closed[g.1.pool] == 0
            && (n in s.targets ==> g.0 == s)
  {
    hide Run;
    assert Inv(Initial(default));
    RunKeeps(Initial(default), es);
    var s := Run(Initial(default), es);
    GotKeeps(s, asked);
    GotNamed(s, if asked.Some? && asked.value != "" then asked.value else s.current);
  }

  /** In every session, a switch that is accepted answers with an open pool of the database
      it names, the one already cached if there was one, and from then on that is what
      asking for the current target hands back. */
  lemma {:induction false} SwitchHandsBack(default: string, es: seq<Event>, name: string, error: Option<string>)
    requires default != "" && Named(es) && name != "" && !Failed(error)
    ensures var s := Run(Initial(default), es);
            var u := Used(s, name, error);
            && u.1.Switched? && u.0.current == name
            && var t := u.1.target;
               && t.name == name && t.pool < |u.0.pools| && u.0.pools[t.pool] == name && u.0.closed[t.pool] == 0
               && (name in s.targets ==> t.pool == s.targets[name] && u.0.pools == s.pools)
               && Got(u.0, None) == (u.0, t) && Got(u.0, Some(name)) == (u.0, t)
  {
    hide Run;
    HandsBackItsOwn(default, es, Some(name));
    GotNamed(Run(Initial(default), es), name);
  }

  // -- the current target ------------------------------------------------------

  /** A failed switch leaves the current name and the cached targets as they were. */
  lemma {:induction false} FailedUseChangesNothing(s: State, name: string, error: Option<string>)
    requires name != "" && Failed(error)
    ensures var r := Used(s, name, error);
            && r.1 == Unreachable(error.value)
            && r.0.current == s.current && r.0.targets == s.targets
            && (name in s.targets ==> r.0 == s)
            && (name !in s.targets ==> r.0.pools == s.pools + [name] && r.0.closed == s.closed + multiset{|s.pools|})
  {
    if name !in s.targets {
      assert s.targets[name := |s.pools|] - {name} == s.targets;
    }
  }

  predicate Accepts(e: Event, name: string) { e.Use? && e.name == name && !Failed(e.error) }

  /** The current name is the default or one whose probe reported no error; a probe
      that failed without a message reports none. */
  lemma {:induction false} CurrentIsVouched(s: State, es: seq<Event>)
    ensures Run(s, es).current == s.current || exists i :: 0 <= i < |es| && Accepts(es[i], Run(s, es).current)
    decreases |es|
  {
    if es != [] {
      var t := Step(s, es[0]);
      CurrentIsVouched(t, es[1..]);
      var last := Run(s, es).current;
      if last != t.current {
        var i :| 0 <= i < |es[1..]| && Accepts(es[1..][i], last);
        assert Accepts(es[i + 1], last);
      } else if last != s.current {
        assert Accepts(es[0], last);
      }
    }
  }

  lemma {:induction false} SilentFailureSwitches(s: State, name: string)
    ensures Used(s, name, Some("")).0.current == name && Used(s, name, Some("")).1.Switched?
  {
  }

  /** After a switch, the same pool stays the current target whatever other targets are
      opened or fail to be, until a further switch succeeds or the registry closes. */
  lemma {:induction false} CurrentSurvives(s: State, name: string, pool: nat, es: seq<Event>)
    requires s.current == name && name != "" && name in s.targets && s.targets[name] == pool
    requires Named(es) && forall e | e in es :: !e.Close? && (e.Use? && !Failed(e.error) ==> e.name == name)
    ensures Got(Run(s, es), None) == (Run(s, es), Target(name, pool))
    decreases |es|
  {
    if es != [] {
      var e := es[0];
      assert e in es;
      if e.Use? && Failed(e.error) {
        FailedUseChangesNothing(s, e.name, e.error);
      }
      CurrentSurvives(Step(s, e), name, pool, es[1..]);
    }
  }
}
