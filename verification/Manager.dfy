/** manager.py: the registry of database targets, one connection pool each, and the
    pointer to the current one. Pools are numbered in the order they are opened. */
module Manager {
  import opened Text

  /** `pools` lists the database of each pool ever opened; `closed` counts how often each pool was closed. */
  datatype State = State(
    targets: map<string, nat>,
    pools: seq<string>,
    closed: multiset<nat>,
    default: string,
    current: string)

  function Initial(name: string): State { State(map[], [], multiset{}, name, name) }

  datatype Target = Target(name: string, pool: nat)

  datatype Switch = Switched(target: Target) | Unreachable(error: string)

  /** `dbname or self.current`: no name and the empty name both mean the current one. */
  function Resolve(s: State, name: Option<string>): string {
    if name.Some? && name.value != "" then name.value else s.current
  }

  function Got(s: State, name: Option<string>): (State, Target) {
    var n := Resolve(s, name);
    if n in s.targets then (s, Target(n, s.targets[n]))
    else (s.(targets := s.targets[n := |s.pools|], pools := s.pools + [n]), Target(n, |s.pools|))
  }

  /** `info.get("error")` counts only when it is a non-empty text. */
  predicate Failed(error: Option<string>) { error.Some? && error.value != "" }

  function Dropped(s: State, name: string, pool: nat): State {
    s.(targets := s.targets - {name}, closed := s.closed + multiset{pool})
  }

  function Used(s: State, name: string, error: Option<string>): (State, Switch) {
    var g := Got(s, Some(name));
    if Failed(error) then
      (if name !in s.targets then Dropped(g.0, name, g.1.pool) else g.0, Unreachable(error.value))
    else (g.0.(current := name), Switched(g.1))
  }

  /** The pools cached under some names. */
  function PoolsOf(m: map<string, nat>, names: set<string>): set<nat> {
    set n | n in names && n in m :: m[n]
  }

  function Closed(s: State): State {
    s.(targets := map[], closed := s.closed + multiset(PoolsOf(s.targets, s.targets.Keys)))
  }

  /** No two names share a pool. */
  predicate Injective(m: map<string, nat>) { forall a, b | a in m && b in m && m[a] == m[b] :: a == b }

  class DatabaseManager {
    var targets: map<string, nat>
    var current: string
    const default: string
    ghost var pools: seq<string>
    ghost var closed: multiset<nat>
    var count: nat      // pools opened so far

    ghost predicate Valid()
      reads this
    {
      count == |pools| && Injective(targets) && forall n | n in targets :: targets[n] < count
    }

    ghost function View(): State
      reads this
    {
      State(targets, pools, closed, default, current)
    }

    constructor (name: string)
      ensures Valid() && View() == Initial(name)
    {
      targets, current, default, pools, closed, count := map[], name, name, [], multiset{}, 0;
    }

    method OpenPool(name: string) returns (pool: nat)
      requires Valid()
      modifies this`count, this`pools
      ensures Valid() && pools == old(pools) + [name] && pool == |old(pools)|
    {
      pool := count;
      count := count + 1;
      pools := pools + [name];
    }

    method ClosePool(pool: nat)
      modifies this`closed
      ensures closed == old(closed) + multiset{pool}
    {
      closed := closed + multiset{pool};
    }

    method Get(name: Option<string>) returns (target: Target)
      requires Valid()
      modifies this`targets, this`count, this`pools
      ensures Valid() && (View(), target) == Got(old(View()), name)
    {
      var n := if name.Some? && name.value != "" then name.value else current;
      if n in targets {
        return Target(n, targets[n]);
      }
      var pool := OpenPool(n);
      targets := targets[n := pool];
      return Target(n, pool);
    }

    /** `error` is what the forced probe of the target reports. */
    method UseDatabase(name: string, error: Option<string>) returns (r: Switch)
      requires Valid()
      modifies this
      ensures Valid() && (View(), r) == Used(old(View()), name, error)
    {
      var newlyCreated := name !in targets;
      var target := Get(Some(name));
      if error.Some? && error.value != "" {
        if newlyCreated {
          ClosePool(target.pool);
          targets := targets - {name};
        }
        return Unreachable(error.value);
      }
      current := name;
      return Switched(target);
    }

    /** Close the pools one by one, then forget them. */
    method Close()
      requires Valid()
      modifies this
      ensures Valid() && View() == Closed(old(View()))
    {
      hide PoolsOf, Injective;
      var rest := targets.Keys;
      NoPools(targets);
      while rest != {}
        invariant rest <= targets.Keys
        invariant closed == old(closed) + multiset(PoolsOf(targets, targets.Keys - rest))
        decreases |rest|
        modifies this`closed
      {
        var n :| n in rest;
        OneMorePool(targets, targets.Keys - rest, n);
        ClosePool(targets[n]);
        assert targets.Keys - (rest - {n}) == targets.Keys - rest + {n};
        rest := rest - {n};
      }
      assert targets.Keys - {} == targets.Keys;
      targets := map[];
      assert Injective(map[]) by { NoPools(map[]); }
    }
  }

  lemma {:induction false} NoPools(m: map<string, nat>)
    ensures PoolsOf(m, m.Keys - m.Keys) == {}
    ensures m == map[] ==> Injective(m)
  {
  }

  lemma {:induction false} OneMorePool(m: map<string, nat>, names: set<string>, n: string)
    requires Injective(m) && n in m && n !in names && names <= m.Keys
    ensures multiset(PoolsOf(m, names + {n})) == multiset(PoolsOf(m, names)) + multiset{m[n]}
  {
    assert PoolsOf(m, names + {n}) == PoolsOf(m, names) + {m[n]};
    assert m[n] !in PoolsOf(m, names);
  }
}
