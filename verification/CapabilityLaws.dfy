/** How stale a tier the guard decides on can be, when the report and the guards agree,
    and what the change notices add up to. */
module CapabilityLaws {
  import opened Text
  import opened Capabilities

  // -- a session with one target -----------------------------------------------

  /** A tool call up to the point where the tool acts or refuses; a report; the tiers
      a health check shows; the forced probe of a database switch. */
  datatype Call =
    | Use(tool: Tool, first: Look, second: Look, looks: Looks)
    | Survey(os: Look, db: Look)
    | Peek(os: Look, db: Look)
    | Refresh(db: Look)

  /** What comes of a tool call: whether the tool acts, whether what it hands back is a
      refusal, and the notices either carries. */
  datatype Passage = Passage(acts: bool, refused: bool, notices: seq<Notice>)

  const RELOAD_BY_SUDO := Demand(Some(OsConfig), None, [])

  function Checked(ttl: real, s: State, d: Demand, l: Looks): (State, Passage) {
    var g := Guarded(ttl, s, d, l);
    (g.0, Passage(g.1.Allowed?, !g.1.Allowed?, g.1.notices))
  }

  /** Two tools have no guard; reloading first looks at both tiers by itself, and if both
      fall short hands back what a guard of its own gives, without reading the verdict. */
  function Gate(ttl: real, s: State, t: Tool, first: Look, second: Look, l: Looks): (State, Passage) {
    match t
    case GetCapabilities | UseDatabase => (s, Passage(true, false, []))
    case ReloadPostgresql =>
      var o := ReadOs(ttl, s, false, first);
      if !OsBelow(o.1, OsConfig) then Checked(ttl, o.0, DemandOf(t), l)
      else
        var d := ReadDb(ttl, o.0, false, second);
        if !DbBelow(d.1.tier, DbAdmin) then Checked(ttl, d.0, DemandOf(t), l)
        else
          var g := Checked(ttl, d.0, RELOAD_BY_SUDO, l);
          (g.0, g.1.(acts := false))
    case _ => Checked(ttl, s, DemandOf(t), l)
  }

  function Step(ttl: real, s: State, c: Call): (State, seq<Notice>) {
    match c
    case Use(t, first, second, l) =>
      var g := Gate(ttl, s, t, first, second, l);
      (g.0, g.1.notices)
    case Survey(os, db) => (Reported(ttl, s, os, db).0, [])
    case Peek(os, db) => (ReadDb(ttl, ReadOs(ttl, s, false, os).0, false, db).0, [])
    case Refresh(db) => (ReadDb(ttl, s, true, db).0, [])
  }

  function Run(ttl: real, s: State, calls: seq<Call>): State
    decreases |calls|
  {
    if calls == [] then s else Run(ttl, Step(ttl, s, calls[0]).0, calls[1..])
  }

  function Notices(ttl: real, s: State, calls: seq<Call>): seq<Notice>
    decreases |calls|
  {
    if calls == [] then []
    else
      var r := Step(ttl, s, calls[0]);
      r.1 + Notices(ttl, r.0, calls[1..])
  }

  // -- bounded staleness -------------------------------------------------------

  function GuardLooks(l: Looks): set<Look> { {l.os, l.db, l.osAgain, l.dbAgain, l.powers, l.role} }

  function LooksOf(c: Call): set<Look> {
    match c
    case Use(_, first, second, l) => {first, second} + GuardLooks(l)
    case Survey(os, db) => {os, db}
    case Peek(os, db) => {os, db}
    case Refresh(db) => {db}
  }

  function Taken(calls: seq<Call>): set<Look>
    decreases |calls|
  {
    if calls == [] then {} else LooksOf(calls[0]) + Taken(calls[1..])
  }

  /** The monotonic clock: the looks of a guard, of a call and of a session come one
      after another. */
  predicate InOrder(now: real, l: Looks) {
    now <= l.os.now <= l.db.now <= l.osAgain.now <= l.dbAgain.now <= l.powers.now <= l.role.now
  }

  predicate Onward(now: real, c: Call) {
    match c
    case Use(_, first, second, l) => now <= first.now <= second.now && InOrder(second.now, l)
    case Survey(os, db) => now <= os.now <= db.now
    case Peek(os, db) => now <= os.now <= db.now
    case Refresh(db) => now <= db.now
  }

  function EndOf(c: Call): real {
    match c
    case Use(_, _, _, l) => l.role.now
    case Survey(_, db) => db.now
    case Peek(_, db) => db.now
    case Refresh(db) => db.now
  }

  predicate Chronicle(now: real, calls: seq<Call>)
    decreases |calls|
  {
    calls == [] || (Onward(now, calls[0]) && Chronicle(EndOf(calls[0]), calls[1..]))
  }

  function Until(now: real, calls: seq<Call>): real
    decreases |calls|
  {
    if calls == [] then now else Until(EndOf(calls[0]), calls[1..])
  }

  ghost predicate OsShown(all: set<Look>, tier: OsTier, at: real) {
    exists k :: k in all && OsOf(k) == tier && k.now == at
  }

  ghost predicate DbShown(all: set<Look>, info: DbInfo, at: real) {
    exists k :: k in all && DbOf(k) == info && k.now == at
  }

  /** Everything cached was shown by one of these looks, at the time on record, which
      is not in the future. */
  ghost predicate Truthful(s: State, all: set<Look>, now: real) {
    && (s.osCache.Some? ==> s.osCache.value.at <= now && OsShown(all, s.osCache.value.value, s.osCache.value.at))
    && (s.dbCache.Some? ==> s.dbCache.value.at <= now && DbShown(all, s.dbCache.value.value, s.dbCache.value.at))
  }

  /** Shown at this very moment, or less than a time-to-live before it. */
  predicate Recent(ttl: real, at: real, now: real) { at == now || 0.0 <= now - at < ttl }

  ghost predicate OsFresh(all: set<Look>, ttl: real, tier: OsTier, now: real) {
    exists at :: OsShown(all, tier, at) && Recent(ttl, at, now)
  }

  ghost predicate DbFresh(all: set<Look>, ttl: real, info: DbInfo, now: real) {
    exists at :: DbShown(all, info, at) && Recent(ttl, at, now)
  }

  lemma {:induction false} ReadOsIsFresh(ttl: real, s: State, force: bool, look: Look, all: set<Look>, now: real)
    requires Truthful(s, all, now) && now <= look.now && look in all
    ensures Truthful(ReadOs(ttl, s, force, look).0, all, look.now)
    ensures OsFresh(all, ttl, ReadOs(ttl, s, force, look).1, look.now)
  {
    hide DbShown, DbOf, OsOf;
    assert OsShown(all, OsOf(look), look.now);
  }

  lemma {:induction false} ReadDbIsFresh(ttl: real, s: State, force: bool, look: Look, all: set<Look>, now: real)
    requires Truthful(s, all, now) && now <= look.now && look in all
    ensures Truthful(ReadDb(ttl, s, force, look).0, all, look.now)
    ensures DbFresh(all, ttl, ReadDb(ttl, s, force, look).1, look.now)
  {
    hide OsShown, DbOf, OsOf;
    assert DbShown(all, DbOf(look), look.now);
  }

  lemma {:induction false} DetectTruthful(ttl: real, s: State, os: Look, db: Look, all: set<Look>, now: real)
    requires Truthful(s, all, now) && now <= os.now <= db.now && os in all && db in all
    ensures Truthful(Detect(ttl, s, os, db).0, all, db.now)
  {
    hide ReadOs, ReadDb, OsShown, DbShown, OsFresh, DbFresh;
    ReadOsIsFresh(ttl, s, false, os, all, now);
    var o := ReadOs(ttl, s, false, os);
    ReadDbIsFresh(ttl, o.0.(lastOs := Some(o.1)), false, db, all, os.now);
  }

  lemma {:induction false} CheckOsFresh(ttl: real, s: State, d: Demand, look: Look, all: set<Look>, now: real)
    requires Truthful(s, all, now) && now <= look.now && look in all
    ensures Truthful(CheckOs(ttl, s, d, look).0, all, look.now)
    ensures d.osMin.Some? ==> CheckOs(ttl, s, d, look).1.Some? && OsFresh(all, ttl, CheckOs(ttl, s, d, look).1.value, look.now)
  {
    hide ReadOs, OsShown, DbShown, OsFresh, DbFresh;
    ReadOsIsFresh(ttl, s, false, look, all, now);
  }

  /** A database tier less than a time-to-live old. */
  ghost predicate DbTierFresh(all: set<Look>, ttl: real, tier: DbTier, now: real) {
    exists info: DbInfo :: info.tier == tier && DbFresh(all, ttl, info, now)
  }

  lemma {:induction false} CheckDbFresh(ttl: real, s: State, d: Demand, look: Look, all: set<Look>, now: real)
    requires Truthful(s, all, now) && now <= look.now && look in all
    ensures Truthful(CheckDb(ttl, s, d, look).0, all, look.now)
    ensures d.dbMin.Some? ==> CheckDb(ttl, s, d, look).1.Some? && DbTierFresh(all, ttl, CheckDb(ttl, s, d, look).1.value, look.now)
  {
    hide ReadDb, OsShown, DbShown, OsFresh, DbFresh;
    ReadDbIsFresh(ttl, s, false, look, all, now);
  }

  /** Powers less than a time-to-live old, among which just these are missing. */
  ghost predicate PowersFresh(all: set<Look>, ttl: real, needs: seq<Power>, missing: seq<Power>, now: real) {
    exists info :: DbFresh(all, ttl, info, now) && Missing(needs, info.powers) == missing
  }

  /** The name a refusal gives: the role's own, less than a time-to-live old, or a stock name. */
  ghost predicate RoleFresh(all: set<Look>, ttl: real, role: string, now: real) {
    exists info :: DbFresh(all, ttl, info, now)
                   && (if info.role.Some? && info.role.value != "" then info.role.value == role else role == "mcp")
  }

  /** What the guard's verdict rests on: every tier it compared, and the powers, were
      shown by a look less than a time-to-live before the guard used them. */
  ghost predicate Grounded(all: set<Look>, ttl: real, d: Demand, l: Looks, r: Outcome) {
    match r
    case OsTooLow(osMin, os, _) => d.osMin == Some(osMin) && OsBelow(os, osMin) && OsFresh(all, ttl, os, l.osAgain.now)
    case DbTooLow(dbMin, db, _) =>
      && OsMet(all, ttl, d, l)
      && d.dbMin == Some(dbMin) && DbBelow(db, dbMin) && DbTierFresh(all, ttl, db, l.dbAgain.now)
    case Lacking(missing, role, _) =>
      && OsMet(all, ttl, d, l) && DbMet(all, ttl, d, l)
      && missing != [] && PowersFresh(all, ttl, d.needs, missing, l.powers.now) && RoleFresh(all, ttl, role, l.role.now)
    case Allowed(_) =>
      && OsMet(all, ttl, d, l) && DbMet(all, ttl, d, l)
      && (d.needs != [] ==> PowersFresh(all, ttl, d.needs, [], l.powers.now))
  }

  ghost predicate OsMet(all: set<Look>, ttl: real, d: Demand, l: Looks) {
    d.osMin.Some? ==> exists os :: !OsBelow(os, d.osMin.value) && OsFresh(all, ttl, os, l.osAgain.now)
  }

  ghost predicate DbMet(all: set<Look>, ttl: real, d: Demand, l: Looks) {
    d.dbMin.Some? ==> exists db :: !DbBelow(db, d.dbMin.value) && DbTierFresh(all, ttl, db, l.dbAgain.now)
  }

  lemma {:induction false} CheckPowersFresh(ttl: real, s: State, d: Demand, l: Looks, notices: seq<Notice>, all: set<Look>, now: real)
    requires Truthful(s, all, now) && now <= l.powers.now <= l.role.now && l.powers in all && l.role in all
    ensures var r := CheckPowers(ttl, s, d, l, notices);
            && Truthful(r.0, all, l.role.now)
            && (r.1.Allowed? || r.1.Lacking?)
            && (r.1.Allowed? && d.needs != [] ==> PowersFresh(all, ttl, d.needs, [], l.powers.now))
            && (r.1.Lacking? ==> r.1.missing != [] && PowersFresh(all, ttl, d.needs, r.1.missing, l.powers.now)
                                 && RoleFresh(all, ttl, r.1.role, l.role.now))
  {
    hide ReadDb, OsShown, DbShown, OsFresh, DbFresh, Missing;
    if d.needs != [] {
      ReadDbIsFresh(ttl, s, false, l.powers, all, now);
      ReadDbIsFresh(ttl, ReadDb(ttl, s, false, l.powers).0, false, l.role, all, l.powers.now);
    }
  }

  lemma {:induction false} GuardIsGrounded(ttl: real, s: State, d: Demand, l: Looks, all: set<Look>, now: real)
    requires Truthful(s, all, now) && InOrder(now, l) && GuardLooks(l) <= all
    ensures Truthful(Guarded(ttl, s, d, l).0, all, l.role.now)
    ensures Grounded(all, ttl, d, l, Guarded(ttl, s, d, l).1)
  {
    hide Detect, CheckOs, CheckDb, CheckPowers, OsShown, DbShown, OsFresh, DbTierFresh, PowersFresh, RoleFresh;
    var seen := Detect(ttl, s, l.os, l.db);
    DetectTruthful(ttl, s, l.os, l.db, all, now);
    var o := CheckOs(ttl, seen.0, d, l.osAgain);
    CheckOsFresh(ttl, seen.0, d, l.osAgain, all, l.db.now);
    CheckedWhenAsked(ttl, seen.0, d, l.osAgain);
    if !(o.1.Some? && OsBelow(o.1.value, d.osMin.value)) {
      var b := CheckDb(ttl, o.0, d, l.dbAgain);
      CheckDbFresh(ttl, o.0, d, l.dbAgain, all, l.osAgain.now);
      CheckedWhenAsked(ttl, o.0, d, l.dbAgain);
      if !(b.1.Some? && DbBelow(b.1.value, d.dbMin.value)) {
        CheckPowersFresh(ttl, b.0, d, l, seen.1, all, l.dbAgain.now);
      }
    }
  }

  lemma {:induction false} CheckedWhenAsked(ttl: real, s: State, d: Demand, look: Look)
    ensures CheckOs(ttl, s, d, look).1.Some? <==> d.osMin.Some?
    ensures CheckDb(ttl, s, d, look).1.Some? <==> d.dbMin.Some?
  {
  }

  lemma {:induction false} GateTruthful(ttl: real, s: State, t: Tool, first: Look, second: Look, l: Looks, all: set<Look>, now: real)
    requires Truthful(s, all, now) && now <= first.now <= second.now && InOrder(second.now, l)
    requires {first, second} + GuardLooks(l) <= all
    ensures Truthful(Gate(ttl, s, t, first, second, l).0, all, l.role.now)
  {
    hide ReadOs, ReadDb, Guarded, OsShown, DbShown, OsFresh, DbFresh, Grounded, DemandOf;
    assert first in all && second in all;
    if t.ReloadPostgresql? {
      var o := ReadOs(ttl, s, false, first);
      ReadOsIsFresh(ttl, s, false, first, all, now);
      GuardIsGrounded(ttl, o.0, DemandOf(t), l, all, first.now);
      var d := ReadDb(ttl, o.0, false, second);
      ReadDbIsFresh(ttl, o.0, false, second, all, first.now);
      GuardIsGrounded(ttl, d.0, DemandOf(t), l, all, second.now);
      GuardIsGrounded(ttl, d.0, RELOAD_BY_SUDO, l, all, second.now);
    } else {
      GuardIsGrounded(ttl, s, DemandOf(t), l, all, now);
    }
  }

  lemma {:induction false} StepTruthful(ttl: real, s: State, c: Call, all: set<Look>, now: real)
    requires Truthful(s, all, now) && Onward(now, c) && LooksOf(c) <= all
    ensures Truthful(Step(ttl, s, c).0, all, EndOf(c))
  {
    hide ReadOs, ReadDb, Gate, OsShown, DbShown, OsFresh, DbFresh, Enabled;
    match c
    case Use(t, first, second, l) => GateTruthful(ttl, s, t, first, second, l, all, now);
    case Survey(os, db) =>
      assert os in all && db in all;
      ReadOsIsFresh(ttl, s, true, os, all, now);
      ReadDbIsFresh(ttl, ReadOs(ttl, s, true, os).0, true, db, all, os.now);
    case Peek(os, db) =>
      assert os in all && db in all;
      ReadOsIsFresh(ttl, s, false, os, all, now);
      ReadDbIsFresh(ttl, ReadOs(ttl, s, false, os).0, false, db, all, os.now);
    case Refresh(db) =>
      assert db in all;
      ReadDbIsFresh(ttl, s, true, db, all, now);
  }

  lemma {:induction false} RunTruthful(ttl: real, s: State, calls: seq<Call>, all: set<Look>, now: real)
    requires Truthful(s, all, now) && Chronicle(now, calls) && Taken(calls) <= all
    ensures Truthful(Run(ttl, s, calls), all, Until(now, calls))
    decreases |calls|
  {
    hide Step, Truthful, Onward, EndOf, LooksOf;
    if calls != [] {
      StepTruthful(ttl, s, calls[0], all, now);
      RunTruthful(ttl, Step(ttl, s, calls[0]).0, calls[1..], all, EndOf(calls[0]));
    }
  }

  /** In every session, however calls and changes of the environment interleave, a
      guard decides on nothing a time-to-live old. */
  lemma {:induction false} BoundedStaleness(ttl: real, calls: seq<Call>, d: Demand, l: Looks, now: real)
    requires Chronicle(now, calls) && InOrder(Until(now, calls), l)
    ensures Grounded(Taken(calls) + GuardLooks(l), ttl, d, l, Guarded(ttl, Run(ttl, INITIAL, calls), d, l).1)
  {
    hide Run, Guarded, Grounded, Chronicle, GuardLooks;
    var all := Taken(calls) + GuardLooks(l);
    RunTruthful(ttl, INITIAL, calls, all, now);
    GuardIsGrounded(ttl, Run(ttl, INITIAL, calls), d, l, all, Until(now, calls));
  }

  // -- the report and the guards -----------------------------------------------

  /** The list grown tier by tier offers a tool exactly when its own module's demand
      is met. */
  lemma {:induction false} EnabledIsEntitled(t: Tool, os: OsTier, db: DbTier, powers: set<Power>)
    ensures t in Enabled(os, db, powers) <==> Entitled(t, os, db, powers)
  {
    hide Always, Writers, Admins, Editors, Grown;
    var writing := Grown(Always(), !DbBelow(db, DbReadwrite), Writers());
    var creating := Grown(writing, Createdb in powers, [CreateDatabase]);
    var roles := Grown(creating, Createrole in powers, [CreateRole]);
    var admins := Grown(roles, !DbBelow(db, DbAdmin), Admins());
    var editing := Grown(admins, !OsBelow(os, OsConfig), Editors());
    InGrown(t, Always(), !DbBelow(db, DbReadwrite), Writers());
    InGrown(t, writing, Createdb in powers, [CreateDatabase]);
    InGrown(t, creating, Createrole in powers, [CreateRole]);
    InGrown(t, roles, !DbBelow(db, DbAdmin), Admins());
    InGrown(t, admins, !OsBelow(os, OsConfig), Editors());
    InGrown(t, editing, !OsBelow(os, OsConfig) || !DbBelow(db, DbAdmin), [ReloadPostgresql]);
    InAlways(t);
    InGrades(t);
  }

  lemma {:induction false} InGrown(t: Tool, tools: seq<Tool>, c: bool, more: seq<Tool>)
    ensures t in Grown(tools, c, more) <==> t in tools || (c && t in more)
  {
  }

  lemma {:induction false} InAlways(t: Tool)
    ensures t in Always() <==> Meets(DemandOf(t), OsNone, DbReadonly, {}) && !t.ReloadPostgresql?
  {
    hide Overview, Structure, Reading;
    InOverview(t);
    InStructure(t);
    InReading(t);
    if t.CreateDatabase? || t.CreateRole? {
      assert DemandOf(t).needs[0] in DemandOf(t).needs;
    }
  }

  lemma {:induction false} InOverview(t: Tool)
    ensures t in Overview() <==> t.GetCapabilities? || t.HealthCheck? || t.UseDatabase? || t.ListDatabases?
                                 || t.ListSchemas? || t.ListTables? || t.DescribeTable?
  {
  }

  lemma {:induction false} InStructure(t: Tool)
    ensures t in Structure() <==> t.ListForeignKeys? || t.ListIndexes? || t.ListViews? || t.ListFunctions?
                                  || t.ListEnums? || t.GetObjectDefinition?
  {
  }

  lemma {:induction false} InReading(t: Tool)
    ensures t in Reading() <==> t.RunReadQuery? || t.ExplainQuery? || t.SampleTable? || t.ServerActivity?
                                || t.ListLocks? || t.DatabaseStats? || t.GetSettings?
  {
  }

  lemma {:induction false} InGrades(t: Tool)
    ensures t in Writers() <==> DemandOf(t).dbMin == Some(DbReadwrite)
    ensures t in Admins() <==> DemandOf(t).dbMin == Some(DbAdmin)
    ensures t in Editors() <==> DemandOf(t).osMin == Some(OsConfig)
  {
  }

  /** Both caches still live at this look. */
  predicate Live(ttl: real, s: State, look: Look) {
    Alive(s.osCache, ttl, look.now) && Alive(s.dbCache, ttl, look.now)
  }

  predicate GuardLive(ttl: real, s: State, l: Looks) {
    && Live(ttl, s, l.os) && Live(ttl, s, l.db) && Live(ttl, s, l.osAgain)
    && Live(ttl, s, l.dbAgain) && Live(ttl, s, l.powers) && Live(ttl, s, l.role)
  }

  predicate SameCaches(s: State, t: State) { s.osCache == t.osCache && s.dbCache == t.dbCache }

  predicate CachedMeets(s: State, d: Demand)
    requires s.osCache.Some? && s.dbCache.Some?
  {
    Meets(d, s.osCache.value.value, s.dbCache.value.value.tier, s.dbCache.value.value.powers)
  }

  lemma {:induction false} MissingNone(needs: seq<Power>, powers: set<Power>)
    ensures Missing(needs, powers) == [] <==> forall p | p in needs :: p in powers
  {
    if Missing(needs, powers) != [] {
      assert Missing(needs, powers)[0] in Missing(needs, powers);
    }
  }

  /** With live caches the guard asks nothing of the environment. */
  lemma {:induction false} GuardWhileLive(ttl: real, s: State, d: Demand, l: Looks)
    requires GuardLive(ttl, s, l)
    ensures SameCaches(s, Guarded(ttl, s, d, l).0)
    ensures Guarded(ttl, s, d, l).1.Allowed? <==> CachedMeets(s, d)
  {
    hide Missing;
    MissingNone(d.needs, s.dbCache.value.value.powers);
  }

  lemma {:induction false} GateWhileLive(ttl: real, s: State, t: Tool, first: Look, second: Look, l: Looks)
    requires Live(ttl, s, first) && Live(ttl, s, second) && GuardLive(ttl, s, l)
    ensures var g := Gate(ttl, s, t, first, second, l);
            && SameCaches(s, g.0)
            && (g.1.acts <==> Entitled(t, s.osCache.value.value, s.dbCache.value.value.tier, s.dbCache.value.value.powers))
  {
    hide Guarded;
    GuardWhileLive(ttl, s, DemandOf(t), l);
    GuardWhileLive(ttl, s, RELOAD_BY_SUDO, l);
  }

  /** A call that leaves the caches alone for as long as they live. */
  predicate Meanwhile(ttl: real, s: State, c: Call) {
    match c
    case Use(_, first, second, l) => Live(ttl, s, first) && Live(ttl, s, second) && GuardLive(ttl, s, l)
    case Peek(os, db) => Live(ttl, s, os) && Live(ttl, s, db)
    case _ => false
  }

  lemma {:induction false} RunWhileLive(ttl: real, s: State, calls: seq<Call>)
    requires forall i | 0 <= i < |calls| :: Meanwhile(ttl, s, calls[i])
    ensures SameCaches(s, Run(ttl, s, calls))
    decreases |calls|
  {
    hide Gate, GuardLive;
    if calls != [] {
      var c := calls[0];
      assert Meanwhile(ttl, s, c);
      var t := Step(ttl, s, c).0;
      if c.Use? {
        GateWhileLive(ttl, s, c.tool, c.first, c.second, c.looks);
      }
      forall i | 0 <= i < |calls[1..]|
        ensures Meanwhile(ttl, t, calls[1..][i])
      {
        assert Meanwhile(ttl, s, calls[i + 1]);
        MeanwhileSame(ttl, s, t, calls[i + 1]);
      }
      RunWhileLive(ttl, t, calls[1..]);
    }
  }

  lemma {:induction false} MeanwhileSame(ttl: real, s: State, t: State, c: Call)
    requires SameCaches(s, t) && Meanwhile(ttl, s, c)
    ensures Meanwhile(ttl, t, c)
  {
  }

  /** A report shows the environment at its own two looks, whatever was cached, and leaves
      just that in the caches; a tool is listed exactly when its demand is met there. */
  lemma {:induction false} ReportShows(ttl: real, s: State, os: Look, db: Look, t: Tool)
    ensures var r := Reported(ttl, s, os, db);
            && (r.1.osTier.OsConfig? <==> os.sudo)
            && r.1.info == Probed(db.answers)
            && r.0.osCache == Some(Cached(r.1.osTier, os.now)) && r.0.dbCache == Some(Cached(r.1.info, db.now))
            && (t in r.1.enabledTools <==>
                  if t.ReloadPostgresql? then os.sudo || r.1.info.tier.DbAdmin?
                  else Meets(DemandOf(t), r.1.osTier, r.1.info.tier, r.1.info.powers))
  {
    hide Probed, Enabled, Meets, DemandOf;
    EnabledIsEntitled(t, OsOf(os), DbOf(db).tier, DbOf(db).powers);
  }

  /** For as long as what a report cached lives, a tool acts exactly when that report
      listed it, whatever the environment does and whatever tools ran in between. */
  lemma {:induction false} ReportAgrees(ttl: real, s: State, os: Look, db: Look, calls: seq<Call>,
                                        t: Tool, first: Look, second: Look, l: Looks)
    requires var r := Reported(ttl, s, os, db).0;
             && (forall i | 0 <= i < |calls| :: Meanwhile(ttl, r, calls[i]))
             && Meanwhile(ttl, r, Use(t, first, second, l))
    ensures var r := Reported(ttl, s, os, db);
            Gate(ttl, Run(ttl, r.0, calls), t, first, second, l).1.acts <==> t in r.1.enabledTools
  {
    hide Gate, GuardLive, Enabled, Entitled, Run;
    var r := Reported(ttl, s, os, db);
    var after := Run(ttl, r.0, calls);
    RunWhileLive(ttl, r.0, calls);
    MeanwhileSame(ttl, r.0, after, Use(t, first, second, l));
    GateWhileLive(ttl, after, t, first, second, l);
    EnabledIsEntitled(t, r.1.osTier, r.1.info.tier, r.1.info.powers);
  }

  /** Once both caches are out, a guard that finishes within a time-to-live decides on
      the environment as it finds it: it agrees with an earlier report just when the
      environment still entitles alike. */
  lemma {:induction false} ExpiryAsksAgain(ttl: real, s: State, d: Demand, l: Looks)
    requires !Alive(s.osCache, ttl, l.os.now) && !Alive(s.dbCache, ttl, l.db.now)
    requires l.osAgain.now - l.os.now < ttl && l.dbAgain.now - l.db.now < ttl && l.powers.now - l.db.now < ttl
    ensures Guarded(ttl, s, d, l).1.Allowed? <==> Meets(d, OsOf(l.os), DbOf(l.db).tier, DbOf(l.db).powers)
  {
    hide Missing, Probed;
    MissingNone(d.needs, DbOf(l.db).powers);
  }

  /** The sudo verdict of a guard: that of the look at the check if the cache is out by
      then; else of the look at detection if the cache was out there; else the cached. */
  lemma {:induction false} SudoVerdict(ttl: real, s: State, l: Looks)
    requires s.osCache.Some? && s.osCache.value.value.OsNone?
    ensures Guarded(ttl, s, RELOAD_BY_SUDO, l).1.Allowed?
            <==> if Alive(Detect(ttl, s, l.os, l.db).0.osCache, ttl, l.osAgain.now)
                 then !Alive(s.osCache, ttl, l.os.now) && l.os.sudo
                 else l.osAgain.sudo
    ensures Guarded(ttl, s, RELOAD_BY_SUDO, l).1.Allowed? || Guarded(ttl, s, RELOAD_BY_SUDO, l).1.OsTooLow?
  {
    hide Probed;
  }

  /** A reload does not act exactly when its own two readings fall short. What it then
      hands back is no refusal, but the notices of a guard that allowed, exactly when the
      tier has run out of the cache by one of that guard's two readings, and sudo is back
      at the last reading that asked. */
  lemma {:induction false} ReloadRefusal(ttl: real, s: State, first: Look, second: Look, l: Looks)
    ensures var o := ReadOs(ttl, s, false, first);
            var d := ReadDb(ttl, o.0, false, second);
            var g := Gate(ttl, s, ReloadPostgresql, first, second, l).1;
            && (!g.acts <==> o.1.OsNone? && !d.1.tier.DbAdmin?)
            && (g.refused ==> !g.acts)
            && (!g.acts ==>
                  (!g.refused <==>
                    if Alive(Detect(ttl, d.0, l.os, l.db).0.osCache, ttl, l.osAgain.now)
                    then !Alive(d.0.osCache, ttl, l.os.now) && l.os.sudo
                    else l.osAgain.sudo))
  {
    hide Guarded, Detect, Probed;
    var o := ReadOs(ttl, s, false, first);
    var d := ReadDb(ttl, o.0, false, second);
    NoDemands(ttl, o.0, l);
    NoDemands(ttl, d.0, l);
    if o.1.OsNone? {
      SudoVerdict(ttl, d.0, l);
    }
  }

  lemma {:induction false} NoDemands(ttl: real, s: State, l: Looks)
    ensures Guarded(ttl, s, Demand(None, None, []), l).1.Allowed?
  {
  }

  // -- notices telescope -------------------------------------------------------

  /** A connected path of real changes from `a` to `b`. */
  predicate Path<T(==)>(a: T, steps: seq<(T, T)>, b: T)
    decreases |steps|
  {
    if steps == [] then a == b
    else steps[0].0 == a && steps[0].1 != a && Path(steps[0].1, steps[1..], b)
  }

  function OsSteps(ns: seq<Notice>): seq<(OsTier, OsTier)> {
    if ns == [] then []
    else (if ns[0].OsChanged? then [(ns[0].wasOs, ns[0].nowOs)] else []) + OsSteps(ns[1..])
  }

  function DbSteps(ns: seq<Notice>): seq<(DbTier, DbTier)> {
    if ns == [] then []
    else (if ns[0].DbChanged? then [(ns[0].wasDb, ns[0].nowDb)] else []) + DbSteps(ns[1..])
  }

  /** The calls that run a guard. */
  predicate Guards(c: Call) { c.Use? && !c.tool.GetCapabilities? && !c.tool.UseDatabase? }

  /** One guarded call moves the last observed tiers on and says so; any other call
      leaves them and says nothing. */
  lemma {:induction false} StepNotices(ttl: real, s: State, c: Call)
    ensures var r := Step(ttl, s, c);
            if Guards(c) then
              && r.0.lastOs.Some? && r.0.lastDb.Some?
              && r.1 == OsNotice(s.lastOs, r.0.lastOs.value) + DbNotice(s.lastDb, r.0.lastDb.value)
            else r.1 == [] && r.0.lastOs == s.lastOs && r.0.lastDb == s.lastDb
  {
    hide Guarded, OsNotice, DbNotice, Enabled, Alive;
    if c.Use? {
      var o := ReadOs(ttl, s, false, c.first);
      var d := ReadDb(ttl, o.0, false, c.second);
      GuardNotices(ttl, s, DemandOf(c.tool), c.looks);
      GuardNotices(ttl, o.0, DemandOf(c.tool), c.looks);
      GuardNotices(ttl, d.0, DemandOf(c.tool), c.looks);
      GuardNotices(ttl, d.0, RELOAD_BY_SUDO, c.looks);
    }
  }

  lemma {:induction false} GuardNotices(ttl: real, s: State, d: Demand, l: Looks)
    ensures var g := Guarded(ttl, s, d, l);
            && g.0.lastOs.Some? && g.0.lastDb.Some?
            && g.1.notices == OsNotice(s.lastOs, g.0.lastOs.value) + DbNotice(s.lastDb, g.0.lastDb.value)
  {
    hide OsNotice, DbNotice, Missing, Probed, Alive;
  }

  lemma {:induction false} PathOn<T>(a: T, b: T, steps: seq<(T, T)>, c: T)
    requires Path(b, steps, c)
    ensures Path(a, (if a != b then [(a, b)] else []) + steps, c)
  {
    assert [] + steps == steps;
    assert ([(a, b)] + steps)[1..] == steps;
  }

  lemma {:induction false} StepsOn(a: Option<OsTier>, b: OsTier, c: Option<DbTier>, d: DbTier, rest: seq<Notice>)
    ensures OsSteps(OsNotice(a, b) + DbNotice(c, d) + rest)
         == (if a.Some? && a.value != b then [(a.value, b)] else []) + OsSteps(rest)
    ensures DbSteps(OsNotice(a, b) + DbNotice(c, d) + rest)
         == (if c.Some? && c.value != d then [(c.value, d)] else []) + DbSteps(rest)
  {
    hide OsSteps, DbSteps;
    var tail := DbNotice(c, d) + rest;
    assert OsNotice(a, b) + DbNotice(c, d) + rest == OsNotice(a, b) + tail;
    if DbNotice(c, d) != [] {
      OneStepOn(DbNotice(c, d)[0], rest);
    } else {
      assert tail == rest;
    }
    if OsNotice(a, b) != [] {
      OneStepOn(OsNotice(a, b)[0], tail);
    } else {
      assert OsNotice(a, b) + tail == tail;
    }
  }

  lemma {:induction false} OneStepOn(n: Notice, rest: seq<Notice>)
    ensures OsSteps([n] + rest) == (if n.OsChanged? then [(n.wasOs, n.nowOs)] else []) + OsSteps(rest)
    ensures DbSteps([n] + rest) == (if n.DbChanged? then [(n.wasDb, n.nowDb)] else []) + DbSteps(rest)
  {
    assert ([n] + rest)[1..] == rest;
  }

  /** From the last observed tiers on, the notices of any session are two paths. */
  lemma {:induction false} NoticesFromHere(ttl: real, s: State, calls: seq<Call>)
    requires s.lastOs.Some? && s.lastDb.Some?
    ensures var t := Run(ttl, s, calls);
            && t.lastOs.Some? && Path(s.lastOs.value, OsSteps(Notices(ttl, s, calls)), t.lastOs.value)
            && t.lastDb.Some? && Path(s.lastDb.value, DbSteps(Notices(ttl, s, calls)), t.lastDb.value)
    decreases |calls|
  {
    hide Step, OsNotice, DbNotice;
    if calls != [] {
      var r := Step(ttl, s, calls[0]);
      StepNotices(ttl, s, calls[0]);
      NoticesFromHere(ttl, r.0, calls[1..]);
      var rest := Notices(ttl, r.0, calls[1..]);
      var t := Run(ttl, s, calls);
      if Guards(calls[0]) {
        StepsOn(s.lastOs, r.0.lastOs.value, s.lastDb, r.0.lastDb.value, rest);
        PathOn(s.lastOs.value, r.0.lastOs.value, OsSteps(rest), t.lastOs.value);
        PathOn(s.lastDb.value, r.0.lastDb.value, DbSteps(rest), t.lastDb.value);
      } else {
        assert [] + rest == rest;
      }
    }
  }

  /** The state after the first call of a session that runs a guard. */
  function FirstGuarded(ttl: real, s: State, calls: seq<Call>): Option<State>
    decreases |calls|
  {
    if calls == [] then None
    else if Guards(calls[0]) then Some(Step(ttl, s, calls[0]).0)
    else FirstGuarded(ttl, Step(ttl, s, calls[0]).0, calls[1..])
  }

  /** Over any session, refreshed caches or not, the notices on each tier lead from
      what the first guard observed to what the last one did: no gap, and no step from
      a tier to itself. Without a guard there is no notice. */
  lemma {:induction false} NoticesTelescope(ttl: real, s: State, calls: seq<Call>)
    requires s.lastOs.None? && s.lastDb.None?
    ensures var first, t, ns := FirstGuarded(ttl, s, calls), Run(ttl, s, calls), Notices(ttl, s, calls);
            if first.None? then ns == [] && t.lastOs.None? && t.lastDb.None?
            else
              && first.value.lastOs.Some? && t.lastOs.Some? && Path(first.value.lastOs.value, OsSteps(ns), t.lastOs.value)
              && first.value.lastDb.Some? && t.lastDb.Some? && Path(first.value.lastDb.value, DbSteps(ns), t.lastDb.value)
    decreases |calls|
  {
    hide Step, DbSteps, OsSteps, Path;
    if calls != [] {
      var r := Step(ttl, s, calls[0]);
      StepNotices(ttl, s, calls[0]);
      var rest := Notices(ttl, r.0, calls[1..]);
      assert [] + rest == rest;
      if Guards(calls[0]) {
        NoticesFromHere(ttl, r.0, calls[1..]);
      } else {
        NoticesTelescope(ttl, r.0, calls[1..]);
      }
    }
  }

  /** The tier a guard refuses on can be one its own notices do not know yet: just
      when the cache runs out between detecting and checking, and the environment has
      moved. The next guard, if the cache still lives, announces it. */
  lemma {:induction false} OsVerdictOutruns(ttl: real, s: State, d: Demand, l: Looks, d2: Demand, l2: Looks)
    requires Guarded(ttl, s, d, l).1.OsTooLow?
    ensures var g, seen := Guarded(ttl, s, d, l), Detect(ttl, s, l.os, l.db).0;
            && g.0.lastOs.Some?
            && (g.1.os != g.0.lastOs.value <==> !Alive(seen.osCache, ttl, l.osAgain.now) && OsOf(l.osAgain) != g.0.lastOs.value)
            && (Alive(g.0.osCache, ttl, l2.os.now) ==>
                  OsSteps(Guarded(ttl, g.0, d2, l2).1.notices)
                  == if g.1.os != g.0.lastOs.value then [(g.0.lastOs.value, g.1.os)] else [])
  {
    hide Missing, Probed, OsSteps, DbSteps, OsNotice, DbNotice, CheckDb;
    var g := Guarded(ttl, s, d, l).0;
    NextNotices(ttl, s, d, l, d2, l2);
    if Alive(g.osCache, ttl, l2.os.now) {
      DetectsLive(ttl, g, d2, l2);
    }
  }

  /** The same on the database tier. */
  lemma {:induction false} DbVerdictOutruns(ttl: real, s: State, d: Demand, l: Looks, d2: Demand, l2: Looks)
    requires Guarded(ttl, s, d, l).1.DbTooLow?
    ensures var g, seen := Guarded(ttl, s, d, l), Detect(ttl, s, l.os, l.db).0;
            && g.0.lastDb.Some?
            && (g.1.db != g.0.lastDb.value <==> !Alive(seen.dbCache, ttl, l.dbAgain.now) && DbOf(l.dbAgain).tier != g.0.lastDb.value)
            && (Alive(g.0.dbCache, ttl, l2.db.now) ==>
                  DbSteps(Guarded(ttl, g.0, d2, l2).1.notices)
                  == if g.1.db != g.0.lastDb.value then [(g.0.lastDb.value, g.1.db)] else [])
  {
    hide Missing, Probed, OsSteps, DbSteps, OsNotice, DbNotice;
    var g := Guarded(ttl, s, d, l).0;
    NextNotices(ttl, s, d, l, d2, l2);
    if Alive(g.dbCache, ttl, l2.db.now) {
      DetectsLive(ttl, g, d2, l2);
    }
  }

  /** What a second guard announces: the way from the tiers the first one left behind. */
  lemma {:induction false} NextNotices(ttl: real, s: State, d: Demand, l: Looks, d2: Demand, l2: Looks)
    ensures var g := Guarded(ttl, s, d, l).0;
            var h := Guarded(ttl, g, d2, l2);
            && g.lastOs.Some? && g.lastDb.Some? && h.0.lastOs.Some? && h.0.lastDb.Some?
            && OsSteps(h.1.notices) == (if g.lastOs != h.0.lastOs then [(g.lastOs.value, h.0.lastOs.value)] else [])
            && DbSteps(h.1.notices) == (if g.lastDb != h.0.lastDb then [(g.lastDb.value, h.0.lastDb.value)] else [])
  {
    hide Guarded, OsSteps, DbSteps, OsNotice, DbNotice;
    var g := Guarded(ttl, s, d, l).0;
    var h := Guarded(ttl, g, d2, l2);
    GuardNotices(ttl, s, d, l);
    GuardNotices(ttl, g, d2, l2);
    StepsOn(g.lastOs, h.0.lastOs.value, g.lastDb, h.0.lastDb.value, []);
    assert h.1.notices + [] == h.1.notices;
    NoSteps();
  }

  lemma {:induction false} NoSteps()
    ensures OsSteps([]) == [] && DbSteps([]) == []
  {
  }

  /** A guard that finds a cache alive observes the cached tier. */
  lemma {:induction false} DetectsLive(ttl: real, s: State, d: Demand, l: Looks)
    ensures Alive(s.osCache, ttl, l.os.now) ==> Guarded(ttl, s, d, l).0.lastOs == Some(s.osCache.value.value)
    ensures Alive(s.dbCache, ttl, l.db.now) ==> Guarded(ttl, s, d, l).0.lastDb == Some(s.dbCache.value.value.tier)
  {
    hide Missing, Probed, OsNotice, DbNotice;
  }
}
