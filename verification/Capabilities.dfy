/** capabilities.py: the cached privilege tiers, the guard in front of the tools, and
    the report of the tools on offer. What the clock shows and what the environment
    would answer at that moment is a `Look`; every reading of a tier takes one. */
module Capabilities {
  import opened Text

  datatype OsTier = OsNone | OsConfig

  datatype DbTier = DbReadonly | DbReadwrite | DbAdmin

  /** Attribute-driven powers, independent of the tier. */
  datatype Power = Createdb | Createrole

  predicate OsBelow(a: OsTier, b: OsTier) { a.OsNone? && b.OsConfig? }

  predicate DbBelow(a: DbTier, b: DbTier) { (a.DbReadonly? && !b.DbReadonly?) || (a.DbReadwrite? && b.DbAdmin?) }

  // -- probing -----------------------------------------------------------------

  datatype Reply<T> = Raised(message: string) | Answer(value: T)

  datatype RoleRow = RoleRow(role: Option<string>, superuser: bool, createdb: bool, createrole: bool)

  /** What the four queries of a probe would answer. */
  datatype Answers = Answers(
    row: Reply<Option<RoleRow>>,
    canWrite: Reply<bool>,
    configFile: Reply<Option<string>>,
    hbaFile: Reply<Option<string>>)

  datatype DbInfo = DbInfo(
    tier: DbTier,
    role: Option<string>,
    attributes: Option<RoleRow>,
    powers: set<Power>,
    configFile: Option<string>,
    hbaFile: Option<string>,
    error: Option<string>)

  datatype Look = Look(now: real, sudo: bool, answers: Answers)

  const UNPROBED := DbInfo(DbReadonly, None, None, {}, None, None, None)

  const NO_ROW := RoleRow(None, false, false, false)

  function TierOf(row: RoleRow, canWrite: bool): DbTier {
    if row.superuser then DbAdmin else if canWrite then DbReadwrite else DbReadonly
  }

  function PowersOf(row: RoleRow): set<Power> {
    (if row.superuser || row.createdb then {Createdb} else {}) + (if row.superuser || row.createrole then {Createrole} else {})
  }

  predicate Superuser(a: Answers) { a.row.Answer? && a.row.value.Some? && a.row.value.value.superuser }

  /** The role row says so itself: being a superuser counts for both powers. */
  predicate RowGrants(a: Answers, p: Power) {
    && a.row.Answer? && a.row.value.Some?
    && (a.row.value.value.superuser || (if p.Createdb? then a.row.value.value.createdb else a.row.value.value.createrole))
  }

  /** The first query that raises ends the probe; what was measured before it stays. Only an
      answered privilege query grades the role: admin for a superuser, else read-write
      exactly when it may create in the schema. */
  function Probed(a: Answers): (info: DbInfo)
    ensures info.tier.DbAdmin? <==> Superuser(a) && a.canWrite.Answer?
    ensures info.tier.DbReadwrite? <==> a.row.Answer? && !Superuser(a) && a.canWrite == Answer(true)
    ensures Createdb in info.powers <==> RowGrants(a, Createdb) && a.canWrite.Answer?
    ensures Createrole in info.powers <==> RowGrants(a, Createrole) && a.canWrite.Answer?
    ensures info.attributes.Some? <==> a.row.Answer?
    ensures a.row.Answer? && a.row.value.Some? ==> info.attributes == a.row.value && info.role == a.row.value.value.role
    ensures a.row.Answer? && a.row.value.None? ==>
              info.role.None? && !info.attributes.value.superuser
              && !info.attributes.value.createdb && !info.attributes.value.createrole
    ensures a.row.Raised? ==> info.role.None? && info.error == Some(a.row.message)
    ensures a.row.Answer? && a.canWrite.Raised? ==> info.error == Some(a.canWrite.message)
    ensures a.row.Raised? || a.canWrite.Raised? || a.configFile.Raised? ==> info.configFile.None? && info.hbaFile.None?
    ensures a.row.Answer? && a.canWrite.Answer? && a.configFile.Raised? ==> info.error == Some(a.configFile.message)
    ensures a.row.Answer? && a.canWrite.Answer? && a.configFile.Answer? ==>
              && info.configFile == a.configFile.value
              && info.hbaFile == (if a.hbaFile.Answer? then a.hbaFile.value else None)
              && info.error == (if a.hbaFile.Raised? then Some(a.hbaFile.message) else None)
  {
    if a.row.Raised? then UNPROBED.(error := Some(a.row.message))
    else
      var row := if a.row.value.Some? then a.row.value.value else NO_ROW;
      var known := UNPROBED.(role := row.role, attributes := Some(row));
      if a.canWrite.Raised? then known.(error := Some(a.canWrite.message))
      else
        var graded := known.(tier := TierOf(row, a.canWrite.value), powers := PowersOf(row));
        if a.configFile.Raised? then graded.(error := Some(a.configFile.message))
        else if a.hbaFile.Raised? then graded.(configFile := a.configFile.value, error := Some(a.hbaFile.message))
        else graded.(configFile := a.configFile.value, hbaFile := a.hbaFile.value)
  }

  function OsOf(look: Look): OsTier { if look.sudo then OsConfig else OsNone }

  function DbOf(look: Look): DbInfo { Probed(look.answers) }

  // -- the caches --------------------------------------------------------------

  datatype Cached<T> = Cached(value: T, at: real)

  datatype State = State(
    osCache: Option<Cached<OsTier>>,
    dbCache: Option<Cached<DbInfo>>,
    lastOs: Option<OsTier>,
    lastDb: Option<DbTier>)

  const INITIAL := State(None, None, None, None)

  predicate Alive<T>(cache: Option<Cached<T>>, ttl: real, now: real) {
    cache.Some? && now - cache.value.at < ttl
  }

  function ReadOs(ttl: real, s: State, force: bool, look: Look): (State, OsTier) {
    if !force && Alive(s.osCache, ttl, look.now) then (s, s.osCache.value.value)
    else (s.(osCache := Some(Cached(OsOf(look), look.now))), OsOf(look))
  }

  function ReadDb(ttl: real, s: State, force: bool, look: Look): (State, DbInfo) {
    if !force && Alive(s.dbCache, ttl, look.now) then (s, s.dbCache.value.value)
    else (s.(dbCache := Some(Cached(DbOf(look), look.now))), DbOf(look))
  }

  // -- change detection and the guard ------------------------------------------

  datatype Notice =
    | OsChanged(wasOs: OsTier, nowOs: OsTier)
    | DbChanged(wasDb: DbTier, nowDb: DbTier)

  function OsNotice(last: Option<OsTier>, tier: OsTier): seq<Notice> {
    if last.Some? && tier != last.value then [OsChanged(last.value, tier)] else []
  }

  function DbNotice(last: Option<DbTier>, tier: DbTier): seq<Notice> {
    if last.Some? && tier != last.value then [DbChanged(last.value, tier)] else []
  }

  function Detect(ttl: real, s: State, os: Look, db: Look): (State, seq<Notice>) {
    var o := ReadOs(ttl, s, false, os);
    var d := ReadDb(ttl, o.0.(lastOs := Some(o.1)), false, db);
    (d.0.(lastDb := Some(d.1.tier)), OsNotice(s.lastOs, o.1) + DbNotice(s.lastDb, d.1.tier))
  }

  /** What an action asks of the tiers and powers. */
  datatype Demand = Demand(osMin: Option<OsTier>, dbMin: Option<DbTier>, needs: seq<Power>)

  /** The moments of one guard call, in the order it may use them. */
  datatype Looks = Looks(os: Look, db: Look, osAgain: Look, dbAgain: Look, powers: Look, role: Look)

  datatype Outcome =
    | Allowed(notices: seq<Notice>)
    | OsTooLow(osMin: OsTier, os: OsTier, notices: seq<Notice>)
    | DbTooLow(dbMin: DbTier, db: DbTier, notices: seq<Notice>)
    | Lacking(missing: seq<Power>, role: string, notices: seq<Notice>)

  function Missing(needs: seq<Power>, powers: set<Power>): (missing: seq<Power>)
    ensures forall p :: p in missing <==> p in needs && p !in powers
  {
    if needs == [] then []
    else (if needs[0] in powers then [] else [needs[0]]) + Missing(needs[1..], powers)
  }

  function RoleName(info: DbInfo): string {
    if info.role.Some? && info.role.value != "" then info.role.value else "mcp"
  }

  function CheckOs(ttl: real, s: State, d: Demand, look: Look): (State, Option<OsTier>) {
    if d.osMin.None? then (s, None)
    else
      var o := ReadOs(ttl, s, false, look);
      (o.0, Some(o.1))
  }

  function CheckDb(ttl: real, s: State, d: Demand, look: Look): (State, Option<DbTier>) {
    if d.dbMin.None? then (s, None)
    else
      var r := ReadDb(ttl, s, false, look);
      (r.0, Some(r.1.tier))
  }

  function CheckPowers(ttl: real, s: State, d: Demand, l: Looks, notices: seq<Notice>): (State, Outcome) {
    if d.needs == [] then (s, Allowed(notices))
    else
      var r := ReadDb(ttl, s, false, l.powers);
      var missing := Missing(d.needs, r.1.powers);
      if missing == [] then (r.0, Allowed(notices))
      else
        var again := ReadDb(ttl, r.0, false, l.role);
        (again.0, Lacking(missing, RoleName(again.1), notices))
  }

  function Guarded(ttl: real, s: State, d: Demand, l: Looks): (State, Outcome) {
    var seen := Detect(ttl, s, l.os, l.db);
    var o := CheckOs(ttl, seen.0, d, l.osAgain);
    if o.1.Some? && OsBelow(o.1.value, d.osMin.value) then (o.0, OsTooLow(d.osMin.value, o.1.value, seen.1))
    else
      var b := CheckDb(ttl, o.0, d, l.dbAgain);
      if b.1.Some? && DbBelow(b.1.value, d.dbMin.value) then (b.0, DbTooLow(d.dbMin.value, b.1.value, seen.1))
      else CheckPowers(ttl, b.0, d, l, seen.1)
  }

  // -- the tools ---------------------------------------------------------------

  datatype Tool =
    | GetCapabilities | HealthCheck | UseDatabase | ListDatabases | ListSchemas | ListTables | DescribeTable
    | ListForeignKeys | ListIndexes | ListViews | ListFunctions | ListEnums | GetObjectDefinition
    | RunReadQuery | ExplainQuery | SampleTable | ServerActivity | ListLocks | DatabaseStats | GetSettings
    | ExecuteSql | ExecuteBatch | CreateDatabase | CreateRole
    | Grant | Revoke | AdminSql | CancelQuery | TerminateBackend
    | ReadPostgresqlConf | ReadPgHbaConf | UpdatePostgresqlSetting | UpdatePgHbaRule | ReloadPostgresql

  function Overview(): seq<Tool> {
    [GetCapabilities, HealthCheck, UseDatabase, ListDatabases, ListSchemas, ListTables, DescribeTable]
  }

  function Structure(): seq<Tool> {
    [ListForeignKeys, ListIndexes, ListViews, ListFunctions, ListEnums, GetObjectDefinition]
  }

  function Reading(): seq<Tool> {
    [RunReadQuery, ExplainQuery, SampleTable, ServerActivity, ListLocks, DatabaseStats, GetSettings]
  }

  /** Usable at every tier. */
  function Always(): seq<Tool> { Overview() + Structure() + Reading() }

  function Writers(): seq<Tool> { [ExecuteSql, ExecuteBatch] }

  function Admins(): seq<Tool> { [Grant, Revoke, AdminSql, CancelQuery, TerminateBackend] }

  function Editors(): seq<Tool> { [ReadPostgresqlConf, ReadPgHbaConf, UpdatePostgresqlSetting, UpdatePgHbaRule] }

  /** What each tool module passes to the guard. */
  function DemandOf(t: Tool): Demand {
    match t
    case GetCapabilities | HealthCheck | UseDatabase | ReloadPostgresql => Demand(None, None, [])
    case ExecuteSql | ExecuteBatch => Demand(None, Some(DbReadwrite), [])
    case CreateDatabase => Demand(None, None, [Createdb])
    case CreateRole => Demand(None, None, [Createrole])
    case Grant | Revoke | AdminSql | CancelQuery | TerminateBackend => Demand(None, Some(DbAdmin), [])
    case ReadPostgresqlConf | ReadPgHbaConf | UpdatePostgresqlSetting | UpdatePgHbaRule => Demand(Some(OsConfig), None, [])
    case _ => Demand(None, Some(DbReadonly), [])
  }

  predicate Meets(d: Demand, os: OsTier, db: DbTier, powers: set<Power>) {
    && (d.osMin.Some? ==> !OsBelow(os, d.osMin.value))
    && (d.dbMin.Some? ==> !DbBelow(db, d.dbMin.value))
    && (forall p | p in d.needs :: p in powers)
  }

  /** When a tool may act: its demand is met; reloading takes either of two ways. */
  predicate Entitled(t: Tool, os: OsTier, db: DbTier, powers: set<Power>) {
    if t.ReloadPostgresql? then os.OsConfig? || db.DbAdmin? else Meets(DemandOf(t), os, db, powers)
  }

  function Grown(tools: seq<Tool>, c: bool, more: seq<Tool>): seq<Tool> { if c then tools + more else tools }

  function Enabled(os: OsTier, db: DbTier, powers: set<Power>): seq<Tool> {
    var writing := Grown(Always(), !DbBelow(db, DbReadwrite), Writers());
    var creating := Grown(Grown(writing, Createdb in powers, [CreateDatabase]), Createrole in powers, [CreateRole]);
    var editing := Grown(Grown(creating, !DbBelow(db, DbAdmin), Admins()), !OsBelow(os, OsConfig), Editors());
    Grown(editing, !OsBelow(os, OsConfig) || !DbBelow(db, DbAdmin), [ReloadPostgresql])
  }

  /** `enabled_tools_for`, short of sorting: one list grown tier by tier. */
  method EnabledTools(os: OsTier, db: DbTier, powers: set<Power>) returns (tools: seq<Tool>)
    ensures tools == Enabled(os, db, powers)
  {
    hide Always, Writers, Admins, Editors, DbBelow, OsBelow;
    tools := Always();
    if !DbBelow(db, DbReadwrite) { tools := tools + Writers(); }
    if Createdb in powers { tools := tools + [CreateDatabase]; }
    if Createrole in powers { tools := tools + [CreateRole]; }
    if !DbBelow(db, DbAdmin) { tools := tools + Admins(); }
    if !OsBelow(os, OsConfig) { tools := tools + Editors(); }
    if !OsBelow(os, OsConfig) || !DbBelow(db, DbAdmin) { tools := tools + [ReloadPostgresql]; }
  }

  // -- the report --------------------------------------------------------------

  datatype Report = Report(osTier: OsTier, info: DbInfo, enabledTools: seq<Tool>)

  function Reported(ttl: real, s: State, os: Look, db: Look): (State, Report) {
    var o := ReadOs(ttl, s, true, os);
    var d := ReadDb(ttl, o.0, true, db);
    (d.0, Report(o.1, d.1, Enabled(o.1, d.1.tier, d.1.powers)))
  }

  // -- the object --------------------------------------------------------------

  class CapabilityManager {
    const ttl: real
    var osCache: Option<Cached<OsTier>>
    var dbCache: Option<Cached<DbInfo>>
    var lastOs: Option<OsTier>
    var lastDb: Option<DbTier>

    ghost function View(): State
      reads this
    {
      State(osCache, dbCache, lastOs, lastDb)
    }

    constructor (ttl: real)
      ensures this.ttl == ttl && View() == INITIAL
    {
      this.ttl, osCache, dbCache, lastOs, lastDb := ttl, None, None, None, None;
    }

    method CurrentOs(force: bool, look: Look) returns (tier: OsTier)
      modifies this`osCache
      ensures (View(), tier) == ReadOs(ttl, old(View()), force, look)
    {
      if !force && osCache.Some? && look.now - osCache.value.at < ttl {
        return osCache.value.value;
      }
      tier := if look.sudo then OsConfig else OsNone;
      osCache := Some(Cached(tier, look.now));
    }

    method CurrentDb(force: bool, look: Look) returns (info: DbInfo)
      modifies this`dbCache
      ensures (View(), info) == ReadDb(ttl, old(View()), force, look)
    {
      if !force && dbCache.Some? && look.now - dbCache.value.at < ttl {
        return dbCache.value.value;
      }
      info := ProbeDb(look.answers);
      dbCache := Some(Cached(info, look.now));
    }

    /** `_probe_db`: the record is filled in step by step; a query that raises leaves
        the rest as it stands. */
    method ProbeDb(a: Answers) returns (info: DbInfo)
      ensures info == Probed(a)
    {
      info := UNPROBED;
      if a.row.Raised? {
        return info.(error := Some(a.row.message));
      }
      var row := if a.row.value.Some? then a.row.value.value else NO_ROW;
      info := info.(role := row.role, attributes := Some(row));
      if a.canWrite.Raised? {
        return info.(error := Some(a.canWrite.message));
      }
      if row.superuser {
        info := info.(tier := DbAdmin);
      } else if a.canWrite.value {
        info := info.(tier := DbReadwrite);
      } else {
        info := info.(tier := DbReadonly);
      }
      info := info.(powers := PowersOf(row));
      if a.configFile.Raised? {
        return info.(error := Some(a.configFile.message));
      }
      info := info.(configFile := a.configFile.value);
      if a.hbaFile.Raised? {
        return info.(error := Some(a.hbaFile.message));
      }
      info := info.(hbaFile := a.hbaFile.value);
    }

    method DetectChanges(os: Look, db: Look) returns (notices: seq<Notice>)
      modifies this
      ensures (View(), notices) == Detect(ttl, old(View()), os, db)
    {
      hide ReadOs, ReadDb;
      notices := [];
      var o := CurrentOs(false, os);
      if lastOs.Some? && o != lastOs.value {
        notices := notices + [OsChanged(lastOs.value, o)];
      }
      assert notices == OsNotice(lastOs, o);
      lastOs := Some(o);
      var d := CurrentDb(false, db);
      if lastDb.Some? && d.tier != lastDb.value {
        notices := notices + [DbChanged(lastDb.value, d.tier)];
      }
      assert notices == OsNotice(old(lastOs), o) + DbNotice(lastDb, d.tier);
      lastDb := Some(d.tier);
    }

    method Guard(d: Demand, l: Looks) returns (r: Outcome)
      modifies this
      ensures (View(), r) == Guarded(ttl, old(View()), d, l)
    {
      hide ReadOs, ReadDb, Detect, Missing;
      var notices := DetectChanges(l.os, l.db);
      if d.osMin.Some? {
        var os := CurrentOs(false, l.osAgain);
        if OsBelow(os, d.osMin.value) {
          return OsTooLow(d.osMin.value, os, notices);
        }
      }
      if d.dbMin.Some? {
        var info := CurrentDb(false, l.dbAgain);
        if DbBelow(info.tier, d.dbMin.value) {
          return DbTooLow(d.dbMin.value, info.tier, notices);
        }
      }
      if d.needs != [] {
        var info := CurrentDb(false, l.powers);
        var missing := Missing(d.needs, info.powers);
        if missing != [] {
          var again := CurrentDb(false, l.role);
          return Lacking(missing, RoleName(again), notices);
        }
      }
      return Allowed(notices);
    }

    method FullReport(os: Look, db: Look) returns (r: Report)
      modifies this
      ensures (View(), r) == Reported(ttl, old(View()), os, db)
    {
      hide ReadOs, ReadDb, Enabled;
      var o := CurrentOs(true, os);
      var d := CurrentDb(true, db);
      var tools := EnabledTools(o, d.tier, d.powers);
      r := Report(o, d, tools);
    }
  }
}
