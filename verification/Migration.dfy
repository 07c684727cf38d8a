/** The schema migration on start-up: a sequence of statements, each committed on its own, with the
    conversion of version-1 tunnels in one transaction. It may stop after any statement and be run again. */
module Migration {
  import opened Bytes
  import opened Protocol
  import Hostname

  /** A version-1 tunnel; `rest` stands for the columns that are copied unread (name, target, access mode,
      allowlist, enabled, times). */
  datatype OldRow = OldRow(agent: string, remotePort: nat, rest: string)

  datatype NewRow = NewRow(
    agent: string, kind: Kind, scheme: Scheme, remotePort: Option<nat>, hostname: Option<string>, rest: string)

  datatype Tunnels = Absent | V1(v1: map<string, OldRow>) | V2(rows: map<string, NewRow>)

  /** The tables and indexes created first. */
  datatype Base = Admins | Devices | AuditLog | ConnectionHistory | AuditCreated | HistoryClosed

  datatype Index = ByAgent | TcpPort | UdpPort | ByHostname

  datatype Db = Db(base: set<Base>, tunnels: Tunnels, indexes: set<Index>, devices: set<string>, enforcesKeys: bool)

  const BASE: seq<Base> := [Admins, Devices, AuditLog, ConnectionHistory, AuditCreated, HistoryClosed]
  const INDEXES: seq<Index> := [ByAgent, TcpPort, UdpPort, ByHostname]
  const ALL_BASE: set<Base> := {Admins, Devices, AuditLog, ConnectionHistory, AuditCreated, HistoryClosed}
  const ALL_INDEXES: set<Index> := {ByAgent, TcpPort, UdpPort, ByHostname}

  datatype Statement = CreateBase(b: Base) | CreateTunnels | Convert | CreateIndex(i: Index)

  // ---------------------------------------------------------------- constraints

  /** The check constraint of the version-2 table. */
  predicate ShapeOk(r: NewRow) {
    if r.kind == Web then r.remotePort == None && r.hostname.Some? else r.remotePort.Some? && r.hostname == None
  }

  /** Two rows that an index forbids together. */
  predicate Clash(i: Index, r: NewRow, q: NewRow) {
    match i
    case ByAgent => false
    case TcpPort => r.kind == Tcp && q.kind == Tcp && r.remotePort == q.remotePort
    case UdpPort => r.kind == Udp && q.kind == Udp && r.remotePort == q.remotePort
    case ByHostname =>
      r.kind == Web && q.kind == Web && r.hostname.Some? && q.hostname.Some? && Hostname.Lower(r.hostname.value) == Hostname.Lower(q.hostname.value)
  }

  predicate Indexable(i: Index, rows: map<string, NewRow>) {
    forall a, b :: a in rows && b in rows && a != b ==> !Clash(i, rows[a], rows[b])
  }

  function Converted(r: OldRow): NewRow {
    NewRow(r.agent, Tcp, TcpScheme, Some(r.remotePort), None, r.rest)
  }

  function AllConverted(v1: map<string, OldRow>): map<string, NewRow> {
    map id | id in v1 :: Converted(v1[id])
  }

  /** With foreign keys enforced, a tunnel of a device that is gone cannot be inserted. */
  predicate NoOrphans(db: Db, v1: map<string, OldRow>) {
    db.enforcesKeys ==> forall id :: id in v1 ==> v1[id].agent in db.devices
  }

  // ---------------------------------------------------------------- statements

  /** A statement's effect, or none if it fails; a failed conversion is rolled back. */
  function Exec(db: Db, st: Statement): Option<Db> {
    match st
    case CreateBase(b) => Some(db.(base := db.base + {b}))
    case CreateTunnels => if db.tunnels == Absent then Some(db.(tunnels := V2(map[]))) else None
    case Convert =>
      if db.tunnels.V1? && NoOrphans(db, db.tunnels.v1) && (forall id :: id in db.tunnels.v1 ==> ShapeOk(Converted(db.tunnels.v1[id])))
      then Some(db.(tunnels := V2(AllConverted(db.tunnels.v1)), indexes := {}))
      else None
    case CreateIndex(i) =>
      if i in db.indexes then Some(db)
      else if db.tunnels.V2? && Indexable(i, db.tunnels.rows) then Some(db.(indexes := db.indexes + {i}))
      else None
  }

  function BaseStatements(bs: seq<Base>): seq<Statement> {
    if bs == [] then [] else [CreateBase(bs[0])] + BaseStatements(bs[1..])
  }

  function IndexStatements(ixs: seq<Index>): seq<Statement> {
    if ixs == [] then [] else [CreateIndex(ixs[0])] + IndexStatements(ixs[1..])
  }

  /** What `migrate_tunnels_v2` does to the tunnels, given the schema it finds. */
  function TunnelStatements(t: Tunnels): seq<Statement> {
    match t
    case Absent => [CreateTunnels] + IndexStatements(INDEXES)
    case V1(_) => [Convert] + IndexStatements(INDEXES)
    case V2(_) => IndexStatements(INDEXES)
  }

  function Plan(db: Db): seq<Statement> {
    BaseStatements(BASE) + TunnelStatements(db.tunnels)
  }

  /** The committed state after at most `k` statements of the plan, and whether all of it was done. */
  function Execute(db: Db, plan: seq<Statement>, k: nat): (Db, bool)
    decreases |plan|
  {
    if plan == [] then (db, true)
    else if k == 0 then (db, false)
    else match Exec(db, plan[0])
      case None => (db, false)
      case Some(d) => Execute(d, plan[1..], k - 1)
  }

  lemma ExecuteBase(db: Db, bs: seq<Base>, rest: seq<Statement>, k: nat)
    requires bs != []
    ensures Execute(db, BaseStatements(bs) + rest, k)
         == if k == 0 then (db, false) else Execute(db.(base := db.base + {bs[0]}), BaseStatements(bs[1..]) + rest, k - 1)
  {
    var plan := BaseStatements(bs) + rest;
    assert plan[0] == CreateBase(bs[0]) && plan[1..] == BaseStatements(bs[1..]) + rest;
    assert Exec(db, CreateBase(bs[0])) == Some(db.(base := db.base + {bs[0]}));
    hide Exec;
    hide BaseStatements;
  }

  lemma NoBaseLeft(rest: seq<Statement>)
    ensures BaseStatements([]) + rest == rest
  {
  }

  // ---------------------------------------------------------------- as code

  class Database {
    var db: Db

    constructor (db: Db)
      ensures this.db == db
    {
      this.db := db;
    }

    method CreateIndexes(k: nat) returns (done: bool)
      modifies this
      ensures (db, done) == Execute(old(db), IndexStatements(INDEXES), k)
    {
      var i, left := 0, k;
      while i < |INDEXES|
        invariant 0 <= i <= |INDEXES|
        invariant Execute(db, IndexStatements(INDEXES[i..]), left) == Execute(old(db), IndexStatements(INDEXES), k)
      {
        assert INDEXES[i..][0] == INDEXES[i] && INDEXES[i..][1..] == INDEXES[i + 1..];
        var statement := CreateIndex(INDEXES[i]);
        assert IndexStatements(INDEXES[i..])[0] == statement && IndexStatements(INDEXES[i..])[1..] == IndexStatements(INDEXES[i + 1..]);
        if left == 0 { return false; }
        var next := Exec(db, statement);
        if next == None { return false; }
        db := next.value;
        i, left := i + 1, left - 1;
      }
      done := true;
    }

    /** The transaction: rename, create, copy row by row, drop. Nothing is committed unless all of it works. */
    method ConvertTunnels() returns (ok: bool)
      requires db.tunnels.V1?
      modifies this
      ensures ok <==> !old(db).enforcesKeys || forall id :: id in old(db).tunnels.v1 ==> old(db).tunnels.v1[id].agent in old(db).devices
      ensures !ok ==> db == old(db)
      ensures ok ==> db.tunnels.V2? && db == old(db).(tunnels := db.tunnels, indexes := {})
      ensures ok ==> db.tunnels.rows.Keys == old(db).tunnels.v1.Keys && forall id :: id in old(db).tunnels.v1 ==>
                var r := old(db).tunnels.v1[id]; db.tunnels.rows[id] == NewRow(r.agent, Tcp, TcpScheme, Some(r.remotePort), None, r.rest)
      ensures ok <==> Exec(old(db), Convert).Some?
      ensures db == if ok then Exec(old(db), Convert).value else old(db)
    {
      var old1 := db.tunnels.v1;
      var rows: map<string, NewRow> := map[];
      var todo := old1.Keys;
      while todo != {}
        invariant todo <= old1.Keys && rows.Keys == old1.Keys - todo
        invariant forall id :: id in rows ==> rows[id] == Converted(old1[id])
        invariant forall id :: id in rows ==> ShapeOk(rows[id]) && (db.enforcesKeys ==> rows[id].agent in db.devices)
      {
        var id :| id in todo;
        var row := Converted(old1[id]);
        if !ShapeOk(row) || (db.enforcesKeys && row.agent !in db.devices) {
          return false;
        }
        rows := rows[id := row];
        todo := todo - {id};
      }
      assert rows == AllConverted(old1);
      db := db.(tunnels := V2(rows), indexes := {});
      ok := true;
    }

    /** `migrate_tunnels_v2`, stopped after `k` committed statements. */
    method MigrateTunnels(k: nat) returns (done: bool)
      modifies this
      ensures (db, done) == Execute(old(db), TunnelStatements(old(db).tunnels), k)
    {
      ghost var plan := TunnelStatements(db.tunnels);
      if db.tunnels.V2? {
        done := CreateIndexes(k);
      } else {
        assert plan[1..] == IndexStatements(INDEXES);
        if k == 0 { return false; }
        if db.tunnels == Absent {
          db := db.(tunnels := V2(map[]));
        } else {
          var ok := ConvertTunnels();
          if !ok { return false; }
        }
        done := CreateIndexes(k - 1);
      }
    }

    /** `migrate`, stopped after `k` committed statements. */
    method Migrate(k: nat) returns (done: bool)
      modifies this
      ensures (db, done) == Execute(old(db), Plan(old(db)), k)
    {
      hide TunnelStatements;
      hide Execute;
      hide BaseStatements;
      var i, left := 0, k;
      ghost var rest := TunnelStatements(db.tunnels);
      while i < |BASE|
        invariant 0 <= i <= |BASE| && db.tunnels == old(db).tunnels
        invariant Execute(db, BaseStatements(BASE[i..]) + rest, left) == Execute(old(db), Plan(old(db)), k)
      {
        assert BASE[i..][0] == BASE[i] && BASE[i..][1..] == BASE[i + 1..];
        ExecuteBase(db, BASE[i..], rest, left);
        if left == 0 { return false; }
        db := db.(base := db.base + {BASE[i]});
        i, left := i + 1, left - 1;
      }
      NoBaseLeft(rest);
      assert BASE[i..] == [];
      done := MigrateTunnels(left);
    }
  }

  // ---------------------------------------------------------------- convergence

  /** What the constraints of each version guarantee of its rows. */
  predicate DbOk(db: Db) {
    match db.tunnels
    case Absent => db.indexes == {}
    case V1(v1) => forall a, b :: a in v1 && b in v1 && a != b ==> v1[a].remotePort != v1[b].remotePort
    case V2(rows) => forall i: Index :: Indexable(i, rows)
  }

  predicate Convertible(db: Db) {
    db.tunnels.V1? ==> NoOrphans(db, db.tunnels.v1)
  }

  /** `DbOk` in full: version 1 has no two tunnels on one port, and version 2 has at most one TCP tunnel and one
      UDP tunnel for each port and one Web tunnel for each host name, whatever its case. */
  lemma SoundMeans(db: Db)
    ensures DbOk(db) <==>
      && (db.tunnels.Absent? ==> db.indexes == {})
      && (db.tunnels.V1? ==> forall a, b :: a in db.tunnels.v1 && b in db.tunnels.v1 && a != b ==>
            db.tunnels.v1[a].remotePort != db.tunnels.v1[b].remotePort)
      && (db.tunnels.V2? ==> forall a, b :: a in db.tunnels.rows && b in db.tunnels.rows && a != b ==>
            var r, q := db.tunnels.rows[a], db.tunnels.rows[b];
            && (r.kind == Tcp && q.kind == Tcp ==> r.remotePort != q.remotePort)
            && (r.kind == Udp && q.kind == Udp ==> r.remotePort != q.remotePort)
            && (r.kind == Web && q.kind == Web && r.hostname.Some? && q.hostname.Some? ==>
                  Hostname.Lower(r.hostname.value) != Hostname.Lower(q.hostname.value)))
  {
    if db.tunnels.V2? {
      var rows := db.tunnels.rows;
      forall a, b | a in rows && b in rows && a != b
        ensures Apart(rows[a], rows[b]) <==> forall i: Index :: !Clash(i, rows[a], rows[b])
      {
        EachClash(rows[a], rows[b]);
      }
      hide Clash;
      if DbOk(db) {
        forall a, b, i: Index | a in rows && b in rows && a != b ensures !Clash(i, rows[a], rows[b]) {
          assert Indexable(i, rows);
        }
      }
    }
  }

  predicate Apart(r: NewRow, q: NewRow) {
    && (r.kind == Tcp && q.kind == Tcp ==> r.remotePort != q.remotePort)
    && (r.kind == Udp && q.kind == Udp ==> r.remotePort != q.remotePort)
    && (r.kind == Web && q.kind == Web && r.hostname.Some? && q.hostname.Some? ==>
          Hostname.Lower(r.hostname.value) != Hostname.Lower(q.hostname.value))
  }

  lemma EachClash(r: NewRow, q: NewRow)
    ensures Apart(r, q) <==> forall i: Index :: !Clash(i, r, q)
  {
    if forall i: Index :: !Clash(i, r, q) {
      assert !Clash(TcpPort, r, q) && !Clash(UdpPort, r, q) && !Clash(ByHostname, r, q);
    }
  }

  /** The schema, indexes and rows that a migration is to end with. */
  function Target(db: Db): Db {
    var rows := match db.tunnels
                case Absent => map[]
                case V1(v1) => AllConverted(v1)
                case V2(rows) => rows;
    db.(base := db.base + ALL_BASE, tunnels := V2(rows), indexes := (if db.tunnels.V2? then db.indexes else {}) + ALL_INDEXES)
  }

  lemma ConvertedIndexable(v1: map<string, OldRow>, i: Index)
    requires forall a, b :: a in v1 && b in v1 && a != b ==> v1[a].remotePort != v1[b].remotePort
    ensures Indexable(i, AllConverted(v1))
  {
  }

  /** The new check and unique constraints cannot fail on version-1 data: every converted row has the shape
      of a TCP tunnel, and every index can be built over them. */
  lemma OldRowsPassNewConstraints(db: Db)
    requires DbOk(db) && db.tunnels.V1?
    ensures forall id :: id in db.tunnels.v1 ==> ShapeOk(Converted(db.tunnels.v1[id]))
    ensures forall i: Index :: Indexable(i, AllConverted(db.tunnels.v1))
    ensures Exec(db, Convert).Some? <==> !db.enforcesKeys || forall id :: id in db.tunnels.v1 ==> db.tunnels.v1[id].agent in db.devices
  {
    forall i: Index ensures Indexable(i, AllConverted(db.tunnels.v1)) {
      ConvertedIndexable(db.tunnels.v1, i);
    }
  }

  /** The statements a migration still has to do in state `db`. */
  predicate OnPlan(db: Db, st: Statement) {
    match st
    case CreateBase(_) => true
    case CreateTunnels => db.tunnels == Absent
    case Convert => db.tunnels.V1?
    case CreateIndex(_) => db.tunnels.V2?
  }

  /** Every statement of a migration succeeds on sound data and changes nothing about where it leads. */
  lemma StatementKeepsTarget(db: Db, st: Statement)
    requires DbOk(db) && Convertible(db) && OnPlan(db, st)
    ensures Exec(db, st).Some?
    ensures var d := Exec(db, st).value; DbOk(d) && Convertible(d) && Target(d) == Target(db)
  {
    match st {
      case CreateBase(b) =>
        assert b in ALL_BASE by { EveryBase(b); }
        assert db.base + {b} + ALL_BASE == db.base + ALL_BASE;
      case CreateTunnels => EmptyIndexable();
      case Convert => OldRowsPassNewConstraints(db);
      case CreateIndex(i) =>
        assert i in ALL_INDEXES by { EveryIndex(i); }
        assert db.indexes + {i} + ALL_INDEXES == db.indexes + ALL_INDEXES;
    }
  }

  lemma EveryBase(b: Base)
    ensures b in ALL_BASE
  {
  }

  lemma EveryIndex(i: Index)
    ensures i in ALL_INDEXES
  {
  }

  lemma EmptyIndexable()
    ensures forall i: Index :: Indexable(i, map[])
  {
  }

  ghost predicate PlanOk(db: Db, plan: seq<Statement>)
    decreases |plan|
  {
    plan == [] || (OnPlan(db, plan[0]) && (Exec(db, plan[0]).Some? ==> PlanOk(Exec(db, plan[0]).value, plan[1..])))
  }

  lemma {:induction false} IndexPlanOk(db: Db, ixs: seq<Index>)
    requires db.tunnels.V2?
    ensures PlanOk(db, IndexStatements(ixs))
    decreases |ixs|
  {
    if ixs != [] {
      assert IndexStatements(ixs)[1..] == IndexStatements(ixs[1..]);
      var next := Exec(db, CreateIndex(ixs[0]));
      if next.Some? {
        IndexPlanOk(next.value, ixs[1..]);
      }
    }
  }

  lemma {:induction false} TunnelPlanOk(db: Db)
    ensures PlanOk(db, TunnelStatements(db.tunnels))
  {
    var plan := TunnelStatements(db.tunnels);
    if db.tunnels.V2? {
      IndexPlanOk(db, INDEXES);
    } else {
      assert plan[1..] == IndexStatements(INDEXES);
      var next := Exec(db, plan[0]);
      if next.Some? {
        IndexPlanOk(next.value, INDEXES);
      }
    }
  }

  lemma {:induction false} BasePlanOk(db: Db, bs: seq<Base>)
    ensures PlanOk(db, BaseStatements(bs) + TunnelStatements(db.tunnels))
    decreases |bs|
  {
    var plan := BaseStatements(bs) + TunnelStatements(db.tunnels);
    if bs == [] {
      assert plan == TunnelStatements(db.tunnels);
      TunnelPlanOk(db);
    } else {
      assert plan[0] == CreateBase(bs[0]) && plan[1..] == BaseStatements(bs[1..]) + TunnelStatements(db.tunnels);
      BasePlanOk(db.(base := db.base + {bs[0]}), bs[1..]);
    }
  }

  /** Stopping a migration anywhere leaves a state that still leads to the same target. */
  lemma {:induction false} StoppingKeepsTarget(db: Db, plan: seq<Statement>, k: nat)
    requires DbOk(db) && Convertible(db) && PlanOk(db, plan)
    ensures var (d, done) := Execute(db, plan, k);
      DbOk(d) && Convertible(d) && Target(d) == Target(db) && (done <==> k >= |plan|)
    decreases |plan|
  {
    if plan != [] && k > 0 {
      StatementKeepsTarget(db, plan[0]);
      hide DbOk;
      hide Convertible;
      hide Target;
      StoppingKeepsTarget(Exec(db, plan[0]).value, plan[1..], k - 1);
    }
  }

  predicate ConvertsFirst(plan: seq<Statement>) {
    forall p, q :: 0 <= p < q < |plan| && plan[p].CreateIndex? ==> plan[q] != Convert
  }

  /** A finished plan has made what its statements create. */
  lemma {:induction false} PlanMakes(db: Db, plan: seq<Statement>, k: nat)
    requires Execute(db, plan, k).1 && ConvertsFirst(plan)
    ensures var d := Execute(db, plan, k).0;
      && db.base <= d.base && (forall b :: CreateBase(b) in plan ==> b in d.base)
      && (Convert !in plan ==> db.indexes <= d.indexes)
      && (forall i :: CreateIndex(i) in plan ==> i in d.indexes)
      && ((db.tunnels.V2? || CreateTunnels in plan || Convert in plan) ==> d.tunnels.V2?)
    decreases |plan|
  {
    if plan != [] {
      assert plan == [plan[0]] + plan[1..];
      PlanMakes(Exec(db, plan[0]).value, plan[1..], k - 1);
      assert plan[0].CreateIndex? ==> Convert !in plan[1..];
    }
  }

  lemma {:induction false} BasesPlanned(bs: seq<Base>)
    ensures forall b :: b in bs ==> CreateBase(b) in BaseStatements(bs)
    ensures forall st :: st in BaseStatements(bs) ==> st.CreateBase?
  {
    if bs != [] {
      BasesPlanned(bs[1..]);
    }
  }

  lemma {:induction false} IndexesPlanned(ixs: seq<Index>)
    ensures forall i :: i in ixs ==> CreateIndex(i) in IndexStatements(ixs)
    ensures forall st :: st in IndexStatements(ixs) ==> st.CreateIndex?
  {
    if ixs != [] {
      IndexesPlanned(ixs[1..]);
    }
  }

  lemma PlanCovers(db: Db)
    ensures ConvertsFirst(Plan(db))
    ensures forall b :: b in ALL_BASE ==> CreateBase(b) in Plan(db)
    ensures forall i :: i in ALL_INDEXES ==> CreateIndex(i) in Plan(db)
    ensures db.tunnels.V2? || CreateTunnels in Plan(db) || Convert in Plan(db)
  {
    BasesPlanned(BASE);
    IndexesPlanned(INDEXES);
    hide BaseStatements;
    hide IndexStatements;
    var a, b := BaseStatements(BASE), TunnelStatements(db.tunnels);
    assert Plan(db) == a + b;
    forall x | x in ALL_BASE ensures CreateBase(x) in Plan(db) {
      assert x in BASE;
      assert CreateBase(x) in a;
    }
    forall i | i in ALL_INDEXES ensures CreateIndex(i) in Plan(db) {
      assert i in INDEXES;
      assert CreateIndex(i) in b;
    }
    TunnelStatementsTail(db.tunnels);
    ConvertComesFirst(a, b);
  }

  lemma ConvertComesFirst(a: seq<Statement>, b: seq<Statement>)
    requires forall st :: st in a ==> st.CreateBase?
    requires b != [] && forall st :: st in b[1..] ==> st.CreateIndex?
    ensures ConvertsFirst(a + b)
  {
    var plan := a + b;
    forall p, q | 0 <= p < q < |plan| ensures !plan[p].CreateIndex? || plan[q] != Convert {
      if p < |a| {
        assert plan[p] == a[p] && a[p] in a;
      } else {
        assert plan[q] == b[q - |a|] == b[1..][q - |a| - 1];
        assert b[1..][q - |a| - 1] in b[1..];
      }
    }
  }

  lemma TunnelStatementsTail(t: Tunnels)
    ensures TunnelStatements(t) != [] && forall st :: st in TunnelStatements(t)[1..] ==> st.CreateIndex?
  {
    IndexesPlanned(INDEXES);
    var b := TunnelStatements(t);
    if !t.V2? {
      assert b[1..] == IndexStatements(INDEXES);
    }
  }

  /** The state after stopping a first run after `ks[0]` statements, a second one after `ks[1]`, and so on. */
  function Stopped(db: Db, ks: seq<nat>): Db
    decreases |ks|
  {
    if ks == [] then db else Stopped(Execute(db, Plan(db), ks[0]).0, ks[1..])
  }

  lemma {:induction false} OneRun(db: Db, k: nat)
    requires DbOk(db) && Convertible(db)
    ensures var (d, done) := Execute(db, Plan(db), k);
      && DbOk(d) && Convertible(d) && Target(d) == Target(db) && (done <==> k >= |Plan(db)|) && (done ==> d == Target(db))
  {
    BasePlanOk(db, BASE);
    StoppingKeepsTarget(db, Plan(db), k);
    var (d, done) := Execute(db, Plan(db), k);
    if done {
      PlanCovers(db);
      PlanMakes(db, Plan(db), k);
      hide Execute;
      hide Plan;
      ReachedTarget(d);
    }
  }

  lemma ReachedTarget(d: Db)
    requires ALL_BASE <= d.base && ALL_INDEXES <= d.indexes && d.tunnels.V2?
    ensures d == Target(d)
  {
    assert d.base + ALL_BASE == d.base && d.indexes + ALL_INDEXES == d.indexes;
  }

  /** Convergence: from any sound database of either version or none, however often a migration is stopped
      and wherever, one complete run afterwards ends with exactly the schema, indexes and rows that one
      uninterrupted run would have produced, and running it again changes nothing. */
  lemma {:induction false} MigrationConverges(db: Db, ks: seq<nat>, k: nat)
    requires DbOk(db) && k >= |Plan(Stopped(db, ks))|
    requires !db.tunnels.V1? || !db.enforcesKeys || forall id :: id in db.tunnels.v1 ==> db.tunnels.v1[id].agent in db.devices
    ensures Execute(Stopped(db, ks), Plan(Stopped(db, ks)), k) == (Target(db), true)
    ensures Execute(Target(db), Plan(Target(db)), |Plan(Target(db))|) == (Target(db), true)
    decreases |ks|
  {
    if ks == [] {
      OneRun(db, k);
      TargetIsDone(db);
      OneRun(Target(db), |Plan(Target(db))|);
    } else {
      OneRun(db, ks[0]);
      MigrationConverges(Execute(db, Plan(db), ks[0]).0, ks[1..], k);
    }
  }

  lemma TargetIsDone(db: Db)
    requires DbOk(db) && Convertible(db)
    ensures DbOk(Target(db)) && Convertible(Target(db)) && Target(Target(db)) == Target(db)
  {
    var d := Target(db);
    assert d.base + ALL_BASE == d.base && d.indexes + ALL_INDEXES == d.indexes;
    if db.tunnels.V1? {
      OldRowsPassNewConstraints(db);
    } else if db.tunnels.Absent? {
      EmptyIndexable();
    }
  }

  /** What a migration ends with, in full. */
  lemma TargetMeans(db: Db)
    ensures var d := Target(db);
      && d.base == db.base + {Admins, Devices, AuditLog, ConnectionHistory, AuditCreated, HistoryClosed}
      && d.devices == db.devices && d.enforcesKeys == db.enforcesKeys
      && (forall i :: i in d.indexes <==> i == ByAgent || i == TcpPort || i == UdpPort || i == ByHostname)
      && d.tunnels.V2?
      && (db.tunnels.Absent? ==> d.tunnels.rows == map[])
      && (db.tunnels.V2? ==> d.tunnels.rows == db.tunnels.rows)
      && (db.tunnels.V1? ==> d.tunnels.rows.Keys == db.tunnels.v1.Keys && forall id :: id in db.tunnels.v1 ==>
            var r := db.tunnels.v1[id]; d.tunnels.rows[id] == NewRow(r.agent, Tcp, TcpScheme, Some(r.remotePort), None, r.rest))
  {
    forall i: Index ensures i in Target(db).indexes {
      EveryIndex(i);
    }
  }

  /** Every version-1 tunnel is there afterwards as a TCP tunnel on the same port, with everything else
      unchanged, and there are no others. */
  lemma {:induction false} OldTunnelsAreKept(db: Db, ks: seq<nat>, k: nat)
    requires db.tunnels.V1? && k >= |Plan(Stopped(db, ks))|
    requires forall a, b :: a in db.tunnels.v1 && b in db.tunnels.v1 && a != b ==> db.tunnels.v1[a].remotePort != db.tunnels.v1[b].remotePort
    requires !db.enforcesKeys || forall id :: id in db.tunnels.v1 ==> db.tunnels.v1[id].agent in db.devices
    ensures var d := Execute(Stopped(db, ks), Plan(Stopped(db, ks)), k).0;
      && d.tunnels.V2? && d.tunnels.rows.Keys == db.tunnels.v1.Keys
      && forall id :: id in db.tunnels.v1 ==>
           var r, n := db.tunnels.v1[id], d.tunnels.rows[id];
           n.agent == r.agent && n.kind == Tcp && n.scheme == TcpScheme && n.remotePort == Some(r.remotePort)
           && n.hostname == None && n.rest == r.rest
  {
    MigrationConverges(db, ks, k);
  }

  lemma {:induction false} PlanNeedsConversion(db: Db, plan: seq<Statement>, k: nat)
    requires db.tunnels.V1? && !NoOrphans(db, db.tunnels.v1) && PlanOk(db, plan) && Convert in plan
    ensures var (d, done) := Execute(db, plan, k); !done && d == db.(base := d.base, indexes := d.indexes) && d.tunnels == db.tunnels
    decreases |plan|
  {
    if k > 0 && plan[0] != Convert {
      assert plan == [plan[0]] + plan[1..];
      var d := Exec(db, plan[0]).value;
      PlanNeedsConversion(d, plan[1..], k - 1);
    }
  }

  /** When the migration can complete, exactly: a version-1 database with foreign keys enforced and a tunnel
      whose device is gone is never converted - the transaction is rolled back, every run fails, and the old
      rows stay as they are; every other sound database is migrated by one complete run. */
  lemma {:induction false} MigratesIff(db: Db)
    requires DbOk(db)
    ensures (exists k :: Execute(db, Plan(db), k).1)
       <==> (!db.tunnels.V1? || !db.enforcesKeys || forall id :: id in db.tunnels.v1 ==> db.tunnels.v1[id].agent in db.devices)
    ensures (exists k :: Execute(db, Plan(db), k).1) || forall k :: Execute(db, Plan(db), k).0.tunnels == db.tunnels
  {
    if Convertible(db) {
      OneRun(db, |Plan(db)|);
    } else {
      forall k: nat ensures !Execute(db, Plan(db), k).1 && Execute(db, Plan(db), k).0.tunnels == db.tunnels {
        BasePlanOk(db, BASE);
        assert Convert in TunnelStatements(db.tunnels);
        PlanNeedsConversion(db, Plan(db), k);
      }
    }
  }
}
