/** Access control lists, the statements that change them, and what privileges are effective. */
module RuntimeAcl {
  import opened RuntimeContract

  const SCHEMA := "b3s_history"

  datatype Privilege =
    | Connect | Create | Temporary | Usage | Select | Insert | Update | Delete
    | Truncate | References | Trigger | Execute

  datatype Object =
    | Database(name: string)
    | Schema(name: string)
    | Relation(schema: string, relation: RelationName)
    | Column(schema: string, relation: RelationName, column: string)
    | Sequence(schema: string, name: string)
    | Function(schema: string, oid: nat)
    | Procedure(schema: string, oid: nat)

  datatype Grantee = Role(name: string) | Public
  datatype Grant = Grant(grantee: Grantee, on: Object, privilege: Privilege)

  // The objects a statement names. Only the last four can be granted on.
  datatype Target =
    | AllTablesIn(schema: string)
    | AllSequencesIn(schema: string)
    | AllFunctionsIn(schema: string)
    | OnColumns(schema: string, relation: RelationName, columns: seq<string>)
    | OnDatabase(name: string)
    | OnSchema(name: string)
    | OnTables(schema: string, relations: set<RelationName>)
    | OnSequences(schema: string, names: set<string>)

  datatype Privileges = All | These(chosen: set<Privilege>)

  datatype Statement =
    | Revoke(privileges: Privileges, target: Target, from: Grantee)
    | Give(granted: set<Privilege>, target: Target, to: Grantee)

  /** Whether a REVOKE on this target reaches the object. A REVOKE on a table reaches the grants on
      its columns only if `cascades`; ALL FUNCTIONS does not include procedures. */
  predicate Covers(t: Target, o: Object, cascades: bool) {
    match t
    case AllTablesIn(s) => (o.Relation? && o.schema == s) || (cascades && o.Column? && o.schema == s)
    case AllSequencesIn(s) => o.Sequence? && o.schema == s
    case AllFunctionsIn(s) => o.Function? && o.schema == s
    case OnColumns(s, r, cs) => o.Column? && o.schema == s && o.relation == r && o.column in cs
    case OnDatabase(n) => o == Database(n)
    case OnSchema(n) => o == Schema(n)
    case OnTables(s, rs) =>
      || (o.Relation? && o.schema == s && o.relation in rs)
      || (cascades && o.Column? && o.schema == s && o.relation in rs)
    case OnSequences(s, ns) => o.Sequence? && o.schema == s && o.name in ns
  }

  predicate Grantable(t: Target) {
    t.OnDatabase? || t.OnSchema? || t.OnTables? || t.OnSequences?
  }

  function Objects(t: Target): set<Object>
    requires Grantable(t)
  {
    match t
    case OnDatabase(n) => {Database(n)}
    case OnSchema(n) => {Schema(n)}
    case OnTables(s, rs) => set r | r in rs :: Relation(s, r)
    case OnSequences(s, ns) => set n | n in ns :: Sequence(s, n)
  }

  predicate WellFormed(s: Statement) {
    s.Give? ==> Grantable(s.target)
  }

  predicate Revokes(s: Statement, g: Grant, cascades: bool)
    requires s.Revoke?
  {
    && g.grantee == s.from && Covers(s.target, g.on, cascades)
    && (s.privileges.These? ==> g.privilege in s.privileges.chosen)
  }

  /** The access control list after one statement. */
  function Effect(s: Statement, acl: set<Grant>, cascades: bool): set<Grant>
    requires WellFormed(s)
  {
    match s
    case Revoke(_, _, _) => set g | g in acl && !Revokes(s, g, cascades)
    case Give(ps, t, to) => acl + set o, p | o in Objects(t) && p in ps :: Grant(to, o, p)
  }

  function EffectOfAll(ss: seq<Statement>, acl: set<Grant>, cascades: bool): set<Grant>
    requires forall s :: s in ss ==> WellFormed(s)
  {
    if ss == [] then acl
    else Effect(ss[|ss| - 1], EffectOfAll(ss[..|ss| - 1], acl, cascades), cascades)
  }

  lemma EffectOfOneMore(ss: seq<Statement>, s: Statement, acl: set<Grant>, cascades: bool)
    requires forall x :: x in ss + [s] ==> WellFormed(x)
    ensures WellFormed(s) && forall x :: x in ss ==> WellFormed(x)
    ensures EffectOfAll(ss + [s], acl, cascades) == Effect(s, EffectOfAll(ss, acl, cascades), cascades)
  {
  }

  // ----- the catalog -----

  datatype Kind = Table | Partitioned | View | Materialized | Foreign

  datatype RelationInfo = RelationInfo(name: RelationName, kind: Kind, columns: seq<string>)
  datatype SequenceInfo = SequenceInfo(name: string, owners: set<RelationName>)

  datatype RoleInfo = RoleInfo(
    canLogin: bool, superuser: bool, createsRoles: bool, createsDatabases: bool, replicates: bool, bypassesRls: bool,
    memberOf: set<string>, owns: set<Object>)

  datatype Catalog = Catalog(
    database: string,
    relations: seq<RelationInfo>,         // of the managed schema, in name order
    sequences: seq<SequenceInfo>,         // of the managed schema, in name order
    schemas: set<string>,
    definers: set<Object>,                // the SECURITY DEFINER functions and procedures
    roles: map<string, RoleInfo>)

  function Names(relations: seq<RelationInfo>): set<RelationName> {
    set i | 0 <= i < |relations| :: relations[i].name
  }

  function SequenceNames(sequences: seq<SequenceInfo>): set<string> {
    set i | 0 <= i < |sequences| :: sequences[i].name
  }

  /** Names are unique, grants on columns of the managed schema name existing columns, and each
      grant carries a privilege that its kind of object has. */
  ghost predicate Consistent(acl: set<Grant>, c: Catalog) {
    && (forall i, j :: 0 <= i < j < |c.relations| ==> c.relations[i].name != c.relations[j].name)
    && (forall i, j :: 0 <= i < j < |c.sequences| ==> c.sequences[i].name != c.sequences[j].name)
    && SCHEMA in c.schemas
    && forall g :: g in acl ==> ObjectExists(g.on, c) && Applies(g.privilege, g.on)
  }

  ghost predicate ObjectExists(o: Object, c: Catalog) {
    match o
    case Column(s, r, col) => s == SCHEMA ==> exists i :: 0 <= i < |c.relations| && c.relations[i].name == r && col in c.relations[i].columns
    case Relation(s, r) => s == SCHEMA ==> r in Names(c.relations)
    case Sequence(s, n) => s == SCHEMA ==> n in SequenceNames(c.sequences)
    case _ => true
  }

  const TABLE_PRIVILEGES: set<Privilege> := {Select, Insert, Update, Delete, Truncate, References, Trigger}
  const COLUMN_PRIVILEGES: set<Privilege> := {Select, Insert, Update, References}
  const SEQUENCE_PRIVILEGES: set<Privilege> := {Usage, Select, Update}

  predicate Applies(p: Privilege, o: Object) {
    match o
    case Database(_) => p in {Connect, Create, Temporary}
    case Schema(_) => p in {Usage, Create}
    case Relation(_, _) => p in TABLE_PRIVILEGES
    case Column(_, _, _) => p in COLUMN_PRIVILEGES
    case Sequence(_, _) => p in SEQUENCE_PRIVILEGES
    case Function(_, _) => p == Execute
    case Procedure(_, _) => p == Execute
  }

  // ----- effective privileges -----

  ghost predicate MemberPath(c: Catalog, path: seq<string>) {
    && path != [] && (forall name :: name in path ==> name in c.roles)
    && forall i :: 0 <= i < |path| - 1 ==> path[i + 1] in c.roles[path[i]].memberOf
  }

  /** The role is the other one, or a member of it, directly or through further roles. */
  ghost predicate ActsAs(c: Catalog, role: string, other: string) {
    exists path :: MemberPath(c, path) && path[0] == role && path[|path| - 1] == other
  }

  /** What the server lets a role do: a superuser everything, any other role what it, PUBLIC or a role that it acts as was
      granted, and everything on what such a role owns. */
  ghost predicate Can(acl: set<Grant>, c: Catalog, role: string, o: Object, p: Privilege) {
    || Has(acl, role, o, p)
    || (role in c.roles && c.roles[role].superuser)
    || exists other :: ActsAs(c, role, other) && (o in c.roles[other].owns || Grant(Role(other), o, p) in acl)
  }

  ghost predicate CanAnyColumn(acl: set<Grant>, c: Catalog, role: string, schema: string, r: RelationName, p: Privilege) {
    Can(acl, c, role, Relation(schema, r), p) || exists column :: Can(acl, c, role, Column(schema, r, column), p)
  }

  /** A login role without special attributes, memberships and objects. */
  predicate SafeRole(c: Catalog, role: string) {
    role in c.roles &&
    var info := c.roles[role];
    && info.canLogin
    && !info.superuser && !info.createsRoles && !info.createsDatabases && !info.replicates && !info.bypassesRls
    && info.memberOf == {} && info.owns == {}
  }

  // The privileges granted to the role itself or to PUBLIC.
  predicate Has(acl: set<Grant>, role: string, o: Object, p: Privilege) {
    Grant(Role(role), o, p) in acl || Grant(Public, o, p) in acl
  }

  predicate HasAnyColumn(acl: set<Grant>, role: string, schema: string, r: RelationName, p: Privilege) {
    || Has(acl, role, Relation(schema, r), p)
    || exists g | g in acl ::
         g.on.Column? && g.on.schema == schema && g.on.relation == r && g.privilege == p
         && (g.grantee == Role(role) || g.grantee == Public)
  }

  lemma FirstMembership(c: Catalog, path: seq<string>)
    requires MemberPath(c, path) && |path| > 1
    ensures path[0] in c.roles && path[1] in c.roles[path[0]].memberOf
  {
    assert path[0 + 1] in c.roles[path[0]].memberOf;
  }

  lemma SafeRoleActsAlone(c: Catalog, role: string, other: string)
    requires SafeRole(c, role) && ActsAs(c, role, other)
    ensures other == role
  {
    var path :| MemberPath(c, path) && path[0] == role && path[|path| - 1] == other;
    if |path| > 1 {
      FirstMembership(c, path);
    }
  }

  /** Of a safe role these are all it can do. */
  lemma CanIffGranted(acl: set<Grant>, c: Catalog, role: string, o: Object, p: Privilege)
    requires SafeRole(c, role)
    ensures Can(acl, c, role, o, p) <==> Has(acl, role, o, p)
  {
    forall other | ActsAs(c, role, other)
      ensures other == role
    {
      SafeRoleActsAlone(c, role, other);
    }
  }

  lemma CanAnyColumnIffGranted(acl: set<Grant>, c: Catalog, role: string, s: string, r: RelationName, p: Privilege)
    requires SafeRole(c, role)
    ensures CanAnyColumn(acl, c, role, s, r, p) <==> HasAnyColumn(acl, role, s, r, p)
  {
    CanIffGranted(acl, c, role, Relation(s, r), p);
    if CanAnyColumn(acl, c, role, s, r, p) && !Can(acl, c, role, Relation(s, r), p) {
      var column :| Can(acl, c, role, Column(s, r, column), p);
      CanIffGranted(acl, c, role, Column(s, r, column), p);
    }
    if HasAnyColumn(acl, role, s, r, p) && !Has(acl, role, Relation(s, r), p) {
      var g :| g in acl && g.on.Column? && g.on.schema == s && g.on.relation == r && g.privilege == p
               && (g.grantee == Role(role) || g.grantee == Public);
      assert g == Grant(g.grantee, Column(s, r, g.on.column), p);
      CanIffGranted(acl, c, role, g.on, p);
    }
  }

  predicate UserSchema(name: string) {
    !("pg_" <= name) && name != "information_schema"
  }
}
