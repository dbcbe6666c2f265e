/** The seed script's de-duplication and upsert of the system roles. */
module RoleSeedModel {
  import opened Common

  datatype RolePermissions = RolePermissions(
    canViewStreams: bool,
    canManageDevices: bool,
    canViewEvidences: bool,
    canManageUsers: bool,
    canConfigureWowza: bool,
    canViewAuditLog: bool,
    canDownloadReports: bool,
    canManagePermissions: bool)

  /** The nullable JSON column: SQL null, `{}`, the known flags, or any other text. */
  datatype Permissions = Null | EmptyObject | Flags(flags: RolePermissions) | Other(text: string)

  datatype Role = Role(name: string, description: string, permissions: Permissions)

  /** Role rows by id (ids are ordered), and the role of each user. */
  datatype Db = Db(roles: map<nat, Role>, users: map<string, Option<nat>>)

  const ADMIN := "admin"
  const SUPERVISOR := "supervisor"
  const OPERATOR := "operator"
  const VIEWER := "viewer"

  const NAMES: seq<string> := [ADMIN, SUPERVISOR, OPERATOR, VIEWER]

  function DefaultPermissions(name: string): Permissions {
    if name == ADMIN then Flags(RolePermissions(true, true, true, true, true, true, true, true))
    else if name == SUPERVISOR then Flags(RolePermissions(true, true, true, false, false, false, false, false))
    else if name == OPERATOR then Flags(RolePermissions(true, true, false, false, false, false, false, false))
    else if name == VIEWER then Flags(RolePermissions(true, false, false, false, false, false, false, false))
    else EmptyObject
  }

  function Description(name: string): string {
    if name == ADMIN then "Administrador del sistema"
    else if name == SUPERVISOR then "Supervisor de operación"
    else if name == OPERATOR then "Operador de evidencia"
    else "Usuario de solo lectura"
  }

  // ---- which row is kept ----

  /** `(permissions::text != '{}') DESC`: nulls first, then true, then false. */
  function Rank(p: Permissions): nat {
    match p
    case Null => 0
    case EmptyObject => 2
    case _ => 1
  }

  predicate NotAfter(roles: map<nat, Role>, a: nat, b: nat)
    requires a in roles && b in roles
  {
    var x, y := Rank(roles[a].permissions), Rank(roles[b].permissions);
    x < y || (x == y && a <= b)
  }

  predicate HasName(roles: map<nat, Role>, id: nat, name: string) {
    id in roles && roles[id].name == name
  }

  /** The rows of one name. */
  function Named(roles: map<nat, Role>, name: string): map<nat, Role> {
    map id | id in roles && HasName(roles, id, name) :: roles[id]
  }

  ghost predicate IsFirst(rows: map<nat, Role>, id: nat) {
    id in rows && forall other :: other in rows ==> NotAfter(rows, id, other)
  }

  ghost predicate FirstOf(rows: map<nat, Role>, ids: set<nat>, id: nat)
    requires ids <= rows.Keys && id in ids
  {
    forall other :: other in ids ==> NotAfter(rows, id, other)
  }

  lemma FirstOfMore(rows: map<nat, Role>, ids: set<nat>, y: nat, x: nat)
    requires ids <= rows.Keys && y in ids && x in rows && FirstOf(rows, ids, y)
    ensures FirstOf(rows, ids + {x}, if NotAfter(rows, x, y) then x else y)
  {
  }

  lemma {:induction false} FirstExists(rows: map<nat, Role>, ids: set<nat>) returns (id: nat)
    requires ids != {} && ids <= rows.Keys
    ensures id in ids && FirstOf(rows, ids, id)
    decreases ids
  {
    id :| id in ids;
    var others := ids - {id};
    if others == {} {
      assert ids == {id};
    } else {
      var y := FirstExists(rows, others);
      FirstOfMore(rows, others, y, id);
      assert others + {id} == ids;
      id := if NotAfter(rows, id, y) then id else y;
    }
  }

  /** `SELECT id ... ORDER BY ... LIMIT 1`. */
  ghost function First(rows: map<nat, Role>): (id: nat)
    requires rows != map[]
    ensures IsFirst(rows, id)
  {
    assert exists id :: IsFirst(rows, id) by {
      var id := FirstExists(rows, rows.Keys);
      assert FirstOf(rows, rows.Keys, id) && IsFirst(rows, id);
    }
    var id :| IsFirst(rows, id);
    id
  }

  ghost function Kept(db: Db, name: string): Option<nat> {
    var rows := Named(db.roles, name);
    if rows == map[] then None else Some(First(rows))
  }

  // ---- UPDATE users, DELETE roles ----

  predicate IsDuplicate(roles: map<nat, Role>, name: string, keep: nat, id: nat) {
    HasName(roles, id, name) && id != keep
  }

  function Merge(db: Db, name: string, keep: nat): Db {
    Db(map id | id in db.roles && !IsDuplicate(db.roles, name, keep, id) :: db.roles[id],
       map u | u in db.users ::
         if db.users[u].Some? && IsDuplicate(db.roles, name, keep, db.users[u].value) then Some(keep) else db.users[u])
  }

  ghost function Dedupe(db: Db, name: string): Db {
    if Kept(db, name).Some? then Merge(db, name, Kept(db, name).value) else db
  }

  // ---- upsert ----

  function Upsert(db: Db, name: string, newId: nat): Db {
    if Named(db.roles, name) != map[] then
      db.(roles := map id | id in db.roles ::
            if db.roles[id].name == name then db.roles[id].(permissions := DefaultPermissions(name)) else db.roles[id])
    else
      db.(roles := db.roles[newId := Role(name, Description(name), DefaultPermissions(name))])
  }

  ghost function DedupeAll(db: Db, names: seq<string>): Db {
    if names == [] then db else Dedupe(DedupeAll(db, names[..|names| - 1]), names[|names| - 1])
  }

  function UpsertAll(db: Db, names: seq<string>, newIds: seq<nat>): Db
    requires |newIds| == |names|
  {
    if names == [] then db
    else
      var n := |names| - 1;
      Upsert(UpsertAll(db, names[..n], newIds[..n]), names[n], newIds[n])
  }

  /** The ids generated for missing roles are new, and differ from each other. */
  predicate FreshIds(db: Db, newIds: seq<nat>) {
    && |newIds| == |NAMES|
    && (forall i :: 0 <= i < |newIds| ==> newIds[i] !in db.roles)
    && (forall i, j :: 0 <= i < j < |newIds| ==> newIds[i] != newIds[j])
  }

  ghost function Seed(db: Db, newIds: seq<nat>): Db
    requires |newIds| == |NAMES|
  {
    UpsertAll(DedupeAll(db, NAMES), NAMES, newIds)
  }
}

module RoleSeedSafety {
  import opened Common
  import opened RoleSeedModel

  /** The foreign key of users holds. */
  ghost predicate KeysValid(db: Db) {
    forall u :: u in db.users && db.users[u].Some? ==> db.users[u].value in db.roles
  }

  ghost function RoleName(db: Db, u: string): Option<string>
    requires u in db.users && KeysValid(db)
  {
    match db.users[u]
    case None => None
    case Some(id) => Some(db.roles[id].name)
  }

  /** The same users, each with a role of the same name, and none of them dangling. */
  ghost predicate KeepsUsers(db: Db, db': Db) {
    && KeysValid(db) && KeysValid(db') && db'.users.Keys == db.users.Keys
    && forall u :: u in db.users ==> RoleName(db', u) == RoleName(db, u)
  }

  /** Roles of other names are as they were, and so are the users that have them. */
  ghost predicate KeepsOthers(db: Db, db': Db, names: seq<string>) {
    && (forall name :: name !in names ==> Named(db'.roles, name) == Named(db.roles, name))
    && (forall u | u in db.users && u in db'.users && db.users[u].Some? && db.users[u].value in db.roles
          && db.roles[db.users[u].value].name !in names :: db'.users[u] == db.users[u])
  }

  /** At most one row has the name. */
  ghost predicate Single(db: Db, name: string) {
    forall a, b :: HasName(db.roles, a, name) && HasName(db.roles, b, name) ==> a == b
  }

  /** Exactly one row has the name, and it has the default permissions. */
  ghost predicate AtDefault(db: Db, name: string) {
    && Single(db, name)
    && exists id :: HasName(db.roles, id, name) && db.roles[id].permissions == DefaultPermissions(name)
  }

  // ---- one name ----

  lemma NoneNamed(roles: map<nat, Role>, name: string)
    ensures Named(roles, name) == map[] <==> forall id :: !HasName(roles, id, name)
  {
    if id :| HasName(roles, id, name) { assert id in Named(roles, name); }
    if Named(roles, name) != map[] {
      var id :| id in Named(roles, name);
      assert HasName(roles, id, name);
    }
  }

  lemma KeptHasName(db: Db, name: string)
    ensures Kept(db, name) == None <==> forall id :: !HasName(db.roles, id, name)
    ensures Kept(db, name).Some? ==> HasName(db.roles, Kept(db, name).value, name)
  {
    NoneNamed(db.roles, name);
    if Kept(db, name).Some? { assert Kept(db, name).value in Named(db.roles, name); }
  }

  /**
   Of the rows of a name, one with no permissions at all is kept before one with some, one with
   some before one with an empty object, and among equals the one with the least id.
   */
  lemma KeptComesFirst(db: Db, name: string, other: nat)
    requires HasName(db.roles, other, name)
    ensures Kept(db, name).Some? && HasName(db.roles, Kept(db, name).value, name)
    ensures var kept := Kept(db, name).value;
            var p, q := db.roles[kept].permissions, db.roles[other].permissions;
            && (q == Null ==> p == Null)
            && (p == EmptyObject ==> q == EmptyObject)
            && ((p == Null <==> q == Null) && (p == EmptyObject <==> q == EmptyObject) ==> kept <= other)
  {
    KeptHasName(db, name);
    var rows := Named(db.roles, name);
    assert other in rows && IsFirst(rows, First(rows));
    assert NotAfter(rows, First(rows), other);
  }

  lemma DedupeStep(db: Db, name: string)
    requires KeysValid(db)
    ensures var db' := Dedupe(db, name);
            && KeepsUsers(db, db') && KeepsOthers(db, db', [name]) && Single(db', name)
            && db'.roles.Keys <= db.roles.Keys
  {
    KeptHasName(db, name);
    var db' := Dedupe(db, name);
    forall other | other != name ensures Named(db'.roles, other) == Named(db.roles, other) {}
  }

  lemma NamedSame(db: Db, db': Db, name: string)
    requires Named(db'.roles, name) == Named(db.roles, name)
    ensures Single(db', name) <==> Single(db, name)
    ensures AtDefault(db', name) <==> AtDefault(db, name)
    ensures Kept(db', name) == Kept(db, name)
  {
    forall id
      ensures HasName(db'.roles, id, name) <==> HasName(db.roles, id, name)
      ensures HasName(db.roles, id, name) ==> db'.roles[id] == db.roles[id]
    {
      assert HasName(db'.roles, id, name) <==> id in Named(db'.roles, name);
      assert HasName(db.roles, id, name) <==> id in Named(db.roles, name);
      if id in Named(db.roles, name) {
        assert Named(db'.roles, name)[id] == db'.roles[id] && Named(db.roles, name)[id] == db.roles[id];
      }
    }
  }

  lemma DedupeIdle(db: Db, name: string)
    requires Single(db, name)
    ensures Dedupe(db, name) == db
  {
    KeptHasName(db, name);
  }

  lemma UpsertDefault(db: Db, name: string, newId: nat)
    requires Single(db, name) && newId !in db.roles
    ensures AtDefault(Upsert(db, name, newId), name)
  {
    NoneNamed(db.roles, name);
    var db' := Upsert(db, name, newId);
    var missing := Named(db.roles, name) == map[];
    forall id
      ensures HasName(db'.roles, id, name) <==> HasName(db.roles, id, name) || (missing && id == newId)
    {
    }
    if missing {
      assert HasName(db'.roles, newId, name);
    } else {
      var id :| HasName(db.roles, id, name);
      assert HasName(db'.roles, id, name);
    }
  }

  lemma UpsertStep(db: Db, name: string, newId: nat)
    requires KeysValid(db) && Single(db, name) && newId !in db.roles
    ensures var db' := Upsert(db, name, newId);
            && KeepsUsers(db, db') && db'.users == db.users && KeepsOthers(db, db', [name])
            && AtDefault(db', name) && db'.roles.Keys <= db.roles.Keys + {newId}
  {
    UpsertDefault(db, name, newId);
    var db' := Upsert(db, name, newId);
    forall other | other != name ensures Named(db'.roles, other) == Named(db.roles, other) {}
  }

  lemma UpsertIdle(db: Db, name: string, newId: nat)
    requires AtDefault(db, name)
    ensures Upsert(db, name, newId) == db
  {
    NoneNamed(db.roles, name);
    var id :| HasName(db.roles, id, name) && db.roles[id].permissions == DefaultPermissions(name);
    var db' := Upsert(db, name, newId);
    assert db'.roles.Keys == db.roles.Keys;
    forall other | other in db.roles ensures db'.roles[other] == db.roles[other] {
      if db.roles[other].name == name { assert HasName(db.roles, other, name) && other == id; }
    }
  }

  // ---- all names ----

  lemma KeepsTrans(a: Db, b: Db, c: Db, names: seq<string>, name: string)
    requires KeepsUsers(a, b) && KeepsUsers(b, c) && KeepsOthers(a, b, names) && KeepsOthers(b, c, [name])
    ensures KeepsUsers(a, c) && KeepsOthers(a, c, names + [name])
  {
    forall n | n !in names + [name] ensures Named(c.roles, n) == Named(a.roles, n) {
      assert n !in names && n !in [name];
    }
    forall u | u in a.users && a.users[u].Some? && a.roles[a.users[u].value].name !in names + [name]
      ensures c.users[u] == a.users[u]
    {
      var n := a.roles[a.users[u].value].name;
      assert n !in names && n !in [name];
      assert RoleName(b, u) == RoleName(a, u);
    }
  }

  lemma {:induction false} DedupeAllKeeps(db: Db, names: seq<string>)
    requires KeysValid(db)
    ensures var db' := DedupeAll(db, names);
            && KeepsUsers(db, db') && KeepsOthers(db, db', names) && db'.roles.Keys <= db.roles.Keys
            && forall name :: name in names ==> Single(db', name)
    decreases |names|
  {
    if names != [] {
      var front, last := names[..|names| - 1], names[|names| - 1];
      DedupeAllKeeps(db, front);
      var mid := DedupeAll(db, front);
      DedupeStep(mid, last);
      KeepsTrans(db, mid, Dedupe(mid, last), front, last);
      assert front + [last] == names;
      forall name | name in names && name != last ensures Single(Dedupe(mid, last), name) {
        assert name in front && name !in [last];
        NamedSame(mid, Dedupe(mid, last), name);
      }
    }
  }

  /** The names are upserted, and the rows are the old ones and some new ones. */
  ghost predicate Upserted(db: Db, db': Db, names: seq<string>, newIds: seq<nat>) {
    && KeepsUsers(db, db') && db'.users == db.users && KeepsOthers(db, db', names)
    && (forall i :: 0 <= i < |names| ==> AtDefault(db', names[i]))
    && (forall id :: id in db'.roles ==> id in db.roles || id in newIds)
  }

  lemma UpsertedOneMore(db: Db, mid: Db, names: seq<string>, newIds: seq<nat>, name: string, newId: nat)
    requires Upserted(db, mid, names, newIds) && Single(db, name) && name !in names
    requires newId !in db.roles && newId !in newIds
    ensures Upserted(db, Upsert(mid, name, newId), names + [name], newIds + [newId])
  {
    NamedSame(db, mid, name);
    UpsertStep(mid, name, newId);
    var db' := Upsert(mid, name, newId);
    KeepsTrans(db, mid, db', names, name);
    forall i | 0 <= i < |names| ensures AtDefault(db', names[i]) {
      assert names[i] !in [name];
      NamedSame(mid, db', names[i]);
    }
  }

  ghost predicate Ready(db: Db, names: seq<string>, newIds: seq<nat>) {
    && |newIds| == |names|
    && (forall i, j :: 0 <= i < j < |names| ==> names[i] != names[j])
    && (forall i, j :: 0 <= i < j < |names| ==> newIds[i] != newIds[j])
    && (forall i :: 0 <= i < |names| ==> newIds[i] !in db.roles && Single(db, names[i]))
  }

  lemma ReadyFront(db: Db, names: seq<string>, newIds: seq<nat>)
    requires Ready(db, names, newIds) && names != []
    ensures var n := |names| - 1;
            && Ready(db, names[..n], newIds[..n])
            && names[n] !in names[..n] && newIds[n] !in newIds[..n] && newIds[n] !in db.roles
            && Single(db, names[n])
            && names[..n] + [names[n]] == names && newIds[..n] + [newIds[n]] == newIds
  {
  }

  lemma {:induction false} UpsertAllKeeps(db: Db, names: seq<string>, newIds: seq<nat>)
    requires KeysValid(db) && Ready(db, names, newIds)
    ensures Upserted(db, UpsertAll(db, names, newIds), names, newIds)
    decreases |names|
  {
    if names != [] {
      var n := |names| - 1;
      ReadyFront(db, names, newIds);
      UpsertAllKeeps(db, names[..n], newIds[..n]);
      UpsertedOneMore(db, UpsertAll(db, names[..n], newIds[..n]), names[..n], newIds[..n], names[n], newIds[n]);
    }
  }

  lemma NamesDistinct()
    ensures forall i, j :: 0 <= i < j < |NAMES| ==> NAMES[i] != NAMES[j]
  {
    assert ADMIN[0] == 'a' && SUPERVISOR[0] == 's' && OPERATOR[0] == 'o' && VIEWER[0] == 'v';
  }

  /** What the seed promises for the users, the other roles and the four system roles. */
  lemma SeedPreserves(db: Db, newIds: seq<nat>)
    requires KeysValid(db) && FreshIds(db, newIds)
    ensures var db' := Seed(db, newIds);
            && KeepsUsers(db, db') && KeepsOthers(db, db', NAMES)
            && forall name :: name in NAMES ==> AtDefault(db', name)
  {
    var mid := DedupeAll(db, NAMES);
    DedupeAllKeeps(db, NAMES);
    NamesDistinct();
    forall i | 0 <= i < |NAMES| ensures Single(mid, NAMES[i]) { assert NAMES[i] in NAMES; }
    UpsertAllKeeps(mid, NAMES, newIds);
    SameNames(db, mid, Seed(db, newIds), NAMES);
  }

  /** What each system role may do after the seed. */
  lemma SeedGrants(db: Db, newIds: seq<nat>, id: nat)
    requires KeysValid(db) && FreshIds(db, newIds)
    requires id in Seed(db, newIds).roles && Seed(db, newIds).roles[id].name in {"admin", "supervisor", "operator", "viewer"}
    ensures var role := Seed(db, newIds).roles[id];
            && role.permissions.Flags?
            && var flags, name := role.permissions.flags, role.name;
               && flags.canViewStreams
               && (flags.canManageDevices <==> name != "viewer")
               && (flags.canViewEvidences <==> name == "admin" || name == "supervisor")
               && (flags.canManageUsers <==> name == "admin")
               && (flags.canConfigureWowza <==> name == "admin")
               && (flags.canViewAuditLog <==> name == "admin")
               && (flags.canDownloadReports <==> name == "admin")
               && (flags.canManagePermissions <==> name == "admin")
  {
    var db' := Seed(db, newIds);
    var name := db'.roles[id].name;
    SeedPreserves(db, newIds);
    NamesDistinct();
    assert NAMES[0] == "admin" && NAMES[1] == "supervisor" && NAMES[2] == "operator" && NAMES[3] == "viewer";
    assert AtDefault(db', name) && HasName(db'.roles, id, name);
    assert db'.roles[id].permissions == DefaultPermissions(name);
  }

  /** A role that was missing is described as follows; one that was there keeps its description. */
  lemma UpsertDescribes(db: Db, name: string, newId: nat)
    requires newId !in db.roles
    ensures var db' := Upsert(db, name, newId);
            && (forall id :: id in db.roles ==> id in db'.roles && db'.roles[id].description == db.roles[id].description)
            && ((forall id :: !HasName(db.roles, id, name)) ==>
                  && newId in db'.roles && db'.roles[newId].name == name
                  && (name == "admin" ==> db'.roles[newId].description == "Administrador del sistema")
                  && (name == "supervisor" ==> db'.roles[newId].description == "Supervisor de operación")
                  && (name == "operator" ==> db'.roles[newId].description == "Operador de evidencia")
                  && (name == "viewer" ==> db'.roles[newId].description == "Usuario de solo lectura"))
  {
    NoneNamed(db.roles, name);
    assert "admin"[0] == 'a' && "supervisor"[0] == 's' && "operator"[0] == 'o' && "viewer"[0] == 'v';
  }

  lemma SameNames(a: Db, b: Db, c: Db, names: seq<string>)
    requires KeepsUsers(a, b) && KeepsUsers(b, c) && KeepsOthers(a, b, names) && KeepsOthers(b, c, names)
    ensures KeepsUsers(a, c) && KeepsOthers(a, c, names)
  {
    forall u | u in a.users && a.users[u].Some? ensures RoleName(b, u) == RoleName(a, u) {}
  }

  // ---- running it twice ----

  lemma {:induction false} DedupeAllIdle(db: Db, names: seq<string>)
    requires forall name :: name in names ==> Single(db, name)
    ensures DedupeAll(db, names) == db
    decreases |names|
  {
    if names != [] {
      DedupeAllIdle(db, names[..|names| - 1]);
      DedupeIdle(db, names[|names| - 1]);
    }
  }

  lemma {:induction false} UpsertAllIdle(db: Db, names: seq<string>, newIds: seq<nat>)
    requires |newIds| == |names| && forall name :: name in names ==> AtDefault(db, name)
    ensures UpsertAll(db, names, newIds) == db
    decreases |names|
  {
    if names != [] {
      var n := |names| - 1;
      UpsertAllIdle(db, names[..n], newIds[..n]);
      UpsertIdle(db, names[n], newIds[n]);
    }
  }

  lemma SeedTwiceIsSeedOnce(db: Db, newIds: seq<nat>, moreIds: seq<nat>)
    requires KeysValid(db) && FreshIds(db, newIds) && |moreIds| == |NAMES|
    ensures Seed(Seed(db, newIds), moreIds) == Seed(db, newIds)
  {
    var once := Seed(db, newIds);
    SeedPreserves(db, newIds);
    forall name | name in NAMES ensures Single(once, name) { assert AtDefault(once, name); }
    DedupeAllIdle(once, NAMES);
    UpsertAllIdle(once, NAMES, moreIds);
  }
}

/** The script over the two tables. */
module RoleSeeds {
  import opened Common
  import opened RoleSeedModel
  import Safety = RoleSeedSafety

  /** The ids are those of the rows to keep, for each system name that has a row. */
  ghost predicate Chosen(db: Db, keepIds: map<string, nat>) {
    forall j :: 0 <= j < |NAMES| ==>
      && (NAMES[j] in keepIds <==> Kept(db, NAMES[j]).Some?)
      && (NAMES[j] in keepIds ==> keepIds[NAMES[j]] == Kept(db, NAMES[j]).value)
  }

  /** De-duplicating other names first does not change which row of a name is kept. */
  lemma KeptUntouched(db: Db, i: nat)
    requires Safety.KeysValid(db) && i < |NAMES|
    ensures Kept(DedupeAll(db, NAMES[..i]), NAMES[i]) == Kept(db, NAMES[i])
  {
    Safety.NamesDistinct();
    Safety.DedupeAllKeeps(db, NAMES[..i]);
    assert NAMES[i] !in NAMES[..i];
    Safety.NamedSame(db, DedupeAll(db, NAMES[..i]), NAMES[i]);
  }

  lemma DedupeNone(db: Db)
    ensures DedupeAll(db, NAMES[..0]) == db
  {
  }

  lemma DedupeOneMore(db: Db, i: nat)
    requires i < |NAMES|
    ensures DedupeAll(db, NAMES[..i + 1]) == Dedupe(DedupeAll(db, NAMES[..i]), NAMES[i])
  {
    assert NAMES[..i + 1][..i] == NAMES[..i];
  }

  class Database {
    var roles: map<nat, Role>
    var users: map<string, Option<nat>>

    function View(): Db
      reads this
    {
      Db(roles, users)
    }

    constructor (db: Db)
      ensures View() == db
    {
      roles, users := db.roles, db.users;
    }

    /** The query for the row to keep: the first in the order of the query. */
    method SelectFirst(name: string) returns (first: Option<nat>)
      ensures first == Kept(View(), name)
    {
      first := None;
      var left := roles.Keys;
      while left != {}
        invariant left <= roles.Keys
        invariant first == None ==> forall id :: id in roles && id !in left ==> roles[id].name != name
        invariant first.Some? ==>
          && first.value in roles && roles[first.value].name == name
          && forall id :: id in roles && id !in left && roles[id].name == name ==> NotAfter(roles, first.value, id)
        decreases left
      {
        var id :| id in left;
        left := left - {id};
        if roles[id].name == name && (first == None || NotAfter(roles, id, first.value)) {
          first := Some(id);
        }
      }
      FirstIsUnique(first, name);
    }

    lemma FirstIsUnique(first: Option<nat>, name: string)
      requires first == None ==> forall id :: id in roles ==> roles[id].name != name
      requires first.Some? ==>
        && first.value in roles && roles[first.value].name == name
        && forall id :: id in roles && roles[id].name == name ==> NotAfter(roles, first.value, id)
      ensures first == Kept(View(), name)
    {
      Safety.NoneNamed(roles, name);
      var rows := Named(roles, name);
      if first.Some? {
        assert first.value in rows;
        assert IsFirst(rows, First(rows)) && First(rows) in roles;
      }
    }

    method RunSeeds(newIds: seq<nat>)
      requires |newIds| == |NAMES| && Safety.KeysValid(View())
      modifies this
      ensures View() == Seed(old(View()), newIds)
    {
      var keepIds := SelectKept();
      Deduplicate(keepIds);
      UpsertRoles(newIds);
    }

    /** The id to keep for each name that has a row, all chosen before anything changes. */
    method SelectKept() returns (keepIds: map<string, nat>)
      ensures Chosen(View(), keepIds)
    {
      Safety.NamesDistinct();
      keepIds := map[];
      for i := 0 to |NAMES|
        invariant forall j :: 0 <= j < i ==> (NAMES[j] in keepIds <==> Kept(View(), NAMES[j]).Some?)
        invariant forall j :: i <= j < |NAMES| ==> NAMES[j] !in keepIds
        invariant forall j :: 0 <= j < i && NAMES[j] in keepIds ==> keepIds[NAMES[j]] == Kept(View(), NAMES[j]).value
      {
        var first := SelectFirst(NAMES[i]);
        if first.Some? {
          keepIds := keepIds[NAMES[i] := first.value];
        }
      }
    }

    method Deduplicate(keepIds: map<string, nat>)
      requires Safety.KeysValid(View()) && Chosen(View(), keepIds)
      modifies this
      ensures View() == DedupeAll(old(View()), NAMES)
    {
      hide Merge, Kept, DedupeAll;
      ghost var before := View();
      DedupeNone(before);
      for i := 0 to |NAMES|
        invariant View() == DedupeAll(before, NAMES[..i])
      {
        KeptUntouched(before, i);
        DedupeOneMore(before, i);
        if NAMES[i] in keepIds {
          MergeRoles(NAMES[i], keepIds[NAMES[i]]);
        }
      }
      assert NAMES[..|NAMES|] == NAMES;
    }

    method MergeRoles(name: string, keepId: nat)
      modifies this
      ensures View() == Merge(old(View()), name, keepId)
    {
      UpdateUsers(name, keepId);
      DeleteRoles(name, keepId);
    }

    method UpsertRoles(newIds: seq<nat>)
      requires |newIds| == |NAMES|
      modifies this
      ensures View() == UpsertAll(old(View()), NAMES, newIds)
    {
      ghost var before := View();
      for i := 0 to |NAMES|
        invariant View() == UpsertAll(before, NAMES[..i], newIds[..i])
      {
        assert NAMES[..i + 1][..i] == NAMES[..i] && newIds[..i + 1][..i] == newIds[..i];
        UpsertRole(NAMES[i], newIds[i]);
      }
      assert newIds[..|NAMES|] == newIds && NAMES[..|NAMES|] == NAMES;
    }

    method UpdateUsers(name: string, keepId: nat)
      modifies this`users
      ensures users == Merge(old(View()), name, keepId).users
    {
      users := map u | u in users ::
        if users[u].Some? && IsDuplicate(roles, name, keepId, users[u].value) then Some(keepId) else users[u];
    }

    method DeleteRoles(name: string, keepId: nat)
      modifies this`roles
      ensures roles == Merge(old(View()), name, keepId).roles
    {
      roles := map id | id in roles && !IsDuplicate(roles, name, keepId, id) :: roles[id];
    }

    method UpsertRole(name: string, newId: nat)
      modifies this`roles
      ensures View() == Upsert(old(View()), name, newId)
    {
      var permissions := DefaultPermissions(name);
      Safety.NoneNamed(roles, name);
      if exists id :: id in roles && HasName(roles, id, name) {
        roles := map id | id in roles ::
          if roles[id].name == name then roles[id].(permissions := permissions) else roles[id];
      } else {
        roles := roles[newId := Role(name, Description(name), permissions)];
      }
    }
  }
}
