/** The verifier of the runtime role's effective privileges, and the whole configuration
    transaction. The central result: after the reset-and-grant sequence the verifier accepts
    exactly when the grants that the sequence does not manage stay within the contract. */
module RuntimeVerify {
  import opened Prelude
  import opened RuntimeContract
  import opened RuntimeAcl
  import opened RuntimeReset

  datatype ConfigError =
    | InvalidRole | TargetMismatch | WrongConnection | HeadNotExact
    | RoleMissing | RoleCannotLogin | RoleTooPowerful | RoleHasMembership | RoleOwnsObjects
    | DatabaseMismatch | RelationsNotExact | KindsNotExact | WatermarkNotApplication
    | BoundaryMissing | RetainsTemporary | RetainsDdl | RelationSetChanged
    | RetainsPrivateAccess | AppendOnlyExceeded | DmlIncomplete | DmlExceeded | NotReadOnly
    | UnexpectedRelation | WatermarkIncomplete | SequenceGrantWrong | UnexpectedSequence
    | SequenceSetChanged | RetainsDefiner

  // ----- the contract on effective privileges -----

  // What the role can do with a relation, on any column of it, and with a sequence of the managed schema.
  ghost function TablePrivileges(acl: set<Grant>, c: Catalog, role: string, r: RelationName): set<Privilege> {
    set p | p in TABLE_PRIVILEGES && Can(acl, c, role, Relation(SCHEMA, r), p)
  }

  ghost function ColumnPrivileges(acl: set<Grant>, c: Catalog, role: string, r: RelationName): set<Privilege> {
    set p | p in COLUMN_PRIVILEGES && CanAnyColumn(acl, c, role, SCHEMA, r, p)
  }

  ghost function SequencePrivileges(acl: set<Grant>, c: Catalog, role: string, n: string): set<Privilege> {
    set p | p in SEQUENCE_PRIVILEGES && Can(acl, c, role, Sequence(SCHEMA, n), p)
  }

  ghost predicate RelationExact(acl: set<Grant>, c: Catalog, role: string, policy: Policy, r: RelationName) {
    TablePrivileges(acl, c, role, r) == Allowed(policy, r) && ColumnPrivileges(acl, c, role, r) <= Allowed(policy, r)
  }

  ghost predicate RelationsExact(acl: set<Grant>, c: Catalog, role: string, policy: Policy) {
    forall r :: r in Names(c.relations) ==> RelationExact(acl, c, role, policy, r)
  }

  ghost predicate SequenceExact(acl: set<Grant>, c: Catalog, role: string, sequences: set<string>, name: string) {
    SequencePrivileges(acl, c, role, name) == if name in sequences then {Usage, Select} else {}
  }

  ghost predicate SequencesExact(acl: set<Grant>, c: Catalog, role: string, expected: set<string>) {
    forall n :: n in SequenceNames(c.sequences) ==> SequenceExact(acl, c, role, expected, n)
  }

  ghost predicate BoundaryExact(acl: set<Grant>, c: Catalog, role: string) {
    && Can(acl, c, role, Database(c.database), Connect) && Can(acl, c, role, Schema(SCHEMA), Usage)
    && !Can(acl, c, role, Database(c.database), Temporary) && !Can(acl, c, role, Database(c.database), Create)
    && (forall s :: s in c.schemas && !("pg_" <= s) && s != "information_schema" ==> !Can(acl, c, role, Schema(s), Create))
  }

  ghost predicate NoDefiner(acl: set<Grant>, c: Catalog, role: string) {
    forall d :: d in c.definers ==> !Can(acl, c, role, d, Execute)
  }

  /** The role's effective privileges are exactly those of the contract. */
  ghost predicate MeetsContract(acl: set<Grant>, c: Catalog, role: string, policy: Policy, sequences: set<string>) {
    && BoundaryExact(acl, c, role) && NoDefiner(acl, c, role)
    && RelationsExact(acl, c, role, policy)
    && SequencesExact(acl, c, role, sequences)
    && sequences <= SequenceNames(c.sequences)
  }

  // ----- _verify_effective_privileges -----

  // A row of the privilege query: the table privileges held, and those held on any column.
  datatype PrivilegeRow = PrivilegeRow(name: RelationName, can: set<Privilege>, column: set<Privilege>)

  function RowFor(acl: set<Grant>, role: string, r: RelationName): PrivilegeRow {
    PrivilegeRow(r,
      set p | p in {Select, Insert, Update, Delete, Truncate, References, Trigger} && Has(acl, role, Relation(SCHEMA, r), p),
      set p | p in {Select, Insert, Update, References} && HasAnyColumn(acl, role, SCHEMA, r, p))
  }

  /** The checks on one row, in the order of the verifier. */
  function RowError(row: PrivilegeRow, policy: Policy): Option<ConfigError> {
    if row.name in policy.hidden then
      if row.can != {} || row.column != {} then Some(RetainsPrivateAccess) else None
    else if row.name in policy.appendOnly then
      if !({Select, Insert} <= row.can)
         || row.can * {Update, Delete, Truncate, References, Trigger} != {}
         || row.column * {Update, References} != {}
      then Some(AppendOnlyExceeded) else None
    else if row.name in policy.application then
      if !({Select, Insert, Update, Delete} <= row.can) then Some(DmlIncomplete)
      else if row.can * {Truncate, References, Trigger} != {} || References in row.column then Some(DmlExceeded)
      else None
    else if row.name in policy.ReadOnly() then
      if Select !in row.can
         || row.can * {Insert, Update, Delete, Truncate, References, Trigger} != {}
         || row.column * {Insert, Update, References} != {}
      then Some(NotReadOnly) else None
    else
      if row.can != {} || row.column != {} then Some(UnexpectedRelation) else None
  }

  lemma RowIsWhatTheRoleCanDo(acl: set<Grant>, c: Catalog, role: string, r: RelationName)
    requires SafeRole(c, role)
    ensures RowFor(acl, role, r).can == TablePrivileges(acl, c, role, r)
    ensures RowFor(acl, role, r).column == ColumnPrivileges(acl, c, role, r)
  {
    forall p
      ensures Can(acl, c, role, Relation(SCHEMA, r), p) <==> Has(acl, role, Relation(SCHEMA, r), p)
      ensures CanAnyColumn(acl, c, role, SCHEMA, r, p) <==> HasAnyColumn(acl, role, SCHEMA, r, p)
    {
      CanIffGranted(acl, c, role, Relation(SCHEMA, r), p);
      CanAnyColumnIffGranted(acl, c, role, SCHEMA, r, p);
    }
  }

  /** The checks accept a row exactly when the privileges are those of the relation's class. */
  lemma RowAcceptedIffExact(acl: set<Grant>, c: Catalog, role: string, policy: Policy, r: RelationName)
    requires policy.Partitioned() && SafeRole(c, role)
    ensures RowError(RowFor(acl, role, r), policy).None? <==> RelationExact(acl, c, role, policy, r)
    ensures r in policy.Head() ==> RowError(RowFor(acl, role, r), policy) != Some(UnexpectedRelation)
  {
    ByClass(RowFor(acl, role, r), policy);
    RowIsWhatTheRoleCanDo(acl, c, role, r);
  }

  lemma ByClass(row: PrivilegeRow, policy: Policy)
    requires policy.Partitioned() && row.can <= TABLE_PRIVILEGES && row.column <= COLUMN_PRIVILEGES
    ensures RowError(row, policy).None? <==> row.can == Allowed(policy, row.name) && row.column <= Allowed(policy, row.name)
  {
  }

  /** The first part of the verifier, up to the schemas. */
  method CheckBoundary(acl: set<Grant>, c: Catalog, role: string) returns (error: Option<ConfigError>)
    requires SafeRole(c, role) && SCHEMA in c.schemas
    ensures error.None? <==> BoundaryExact(acl, c, role)
    ensures error != Some(UnexpectedRelation) && error != Some(WatermarkIncomplete)
  {
    var database, schema := Database(c.database), Schema(SCHEMA);
    CanIffGranted(acl, c, role, database, Connect);
    CanIffGranted(acl, c, role, database, Temporary);
    CanIffGranted(acl, c, role, database, Create);
    CanIffGranted(acl, c, role, schema, Usage);
    CanIffGranted(acl, c, role, schema, Create);
    if !Has(acl, role, database, Connect) || !Has(acl, role, schema, Usage) {
      return Some(BoundaryMissing);
    }
    if Has(acl, role, database, Temporary) {
      return Some(RetainsTemporary);
    }
    if Has(acl, role, database, Create) || Has(acl, role, schema, Create) {
      ManagedSchemaIsUserSchema();
      return Some(RetainsDdl);
    }
    forall s | s in c.schemas
      ensures Can(acl, c, role, Schema(s), Create) <==> Has(acl, role, Schema(s), Create)
    {
      CanIffGranted(acl, c, role, Schema(s), Create);
    }
    if exists s | s in c.schemas :: UserSchema(s) && Has(acl, role, Schema(s), Create) {
      return Some(RetainsDdl);
    }
    error := None;
  }

  method CanExecuteDefiner(acl: set<Grant>, c: Catalog, role: string) returns (executes: bool)
    requires SafeRole(c, role)
    ensures executes <==> exists d :: d in c.definers && Can(acl, c, role, d, Execute)
  {
    forall d | d in c.definers
      ensures Can(acl, c, role, d, Execute) <==> Has(acl, role, d, Execute)
    {
      CanIffGranted(acl, c, role, d, Execute);
    }
    executes := exists d | d in c.definers :: Has(acl, role, d, Execute);
  }

  /** _verify_effective_privileges: no error exactly when the effective privileges are those of the contract.
      With the relations of the head, the catch-all branch and the watermark failure cannot happen. */
  method VerifyEffectivePrivileges(conn: Connection, role: string, relations: seq<RelationInfo>, policy: Policy, sequences: set<string>)
    returns (error: Option<ConfigError>)
    requires policy.Partitioned() && SCHEMA in conn.catalog.schemas && SafeRole(conn.catalog, role)
    requires Names(relations) == policy.Head()
    ensures error.None? <==>
      Names(conn.catalog.relations) == Names(relations) && MeetsContract(conn.acl, conn.catalog, role, policy, sequences)
    ensures error != Some(UnexpectedRelation) && error != Some(WatermarkIncomplete)
  {
    var acl, c := conn.acl, conn.catalog;
    error := CheckBoundary(acl, c, role);
    if error.Some? {
      return;
    }
    if Names(c.relations) != Names(relations) {
      return Some(RelationSetChanged);
    }
    error := CheckRows(acl, c, role, policy);
    assert forall i :: 0 <= i < |c.relations| ==> c.relations[i].name in Names(c.relations);
    if error.Some? {
      return;
    }
    if policy.watermark !in Names(c.relations) || !({Select, Insert, Update, Delete} <= RowFor(acl, role, policy.watermark).can) {
      WatermarkIsComplete(acl, c, role, policy);
      return Some(WatermarkIncomplete);
    }
    error := CheckSequences(acl, c, role, sequences);
    if error.Some? {
      return;
    }
    var executes := CanExecuteDefiner(acl, c, role);
    if executes {
      return Some(RetainsDefiner);
    }
    error := None;
  }

  lemma ManagedSchemaIsUserSchema()
    ensures UserSchema(SCHEMA)
  {
    assert SCHEMA[0] == 'b' && "pg_"[0] == 'p';
    assert |SCHEMA| == 11 && |"information_schema"| == 18;
  }

  lemma WatermarkIsComplete(acl: set<Grant>, c: Catalog, role: string, policy: Policy)
    requires policy.Partitioned() && SafeRole(c, role) && RelationExact(acl, c, role, policy, policy.watermark)
    ensures {Select, Insert, Update, Delete} <= RowFor(acl, role, policy.watermark).can
  {
    RowIsWhatTheRoleCanDo(acl, c, role, policy.watermark);
  }

  ghost predicate Unclassified(policy: Policy, name: RelationName) {
    name !in policy.Head()
  }

  /** The checks on one row. */
  method CheckRow(acl: set<Grant>, c: Catalog, role: string, policy: Policy, name: RelationName) returns (error: Option<ConfigError>)
    requires policy.Partitioned() && SafeRole(c, role)
    ensures error.None? <==> RelationExact(acl, c, role, policy, name)
    ensures error == Some(UnexpectedRelation) ==> Unclassified(policy, name)
    ensures error != Some(WatermarkIncomplete)
  {
    RowAcceptedIffExact(acl, c, role, policy, name);
    error := RowError(RowFor(acl, role, name), policy);
  }

  ghost predicate FirstRowsExact(acl: set<Grant>, c: Catalog, role: string, policy: Policy, n: nat)
    requires n <= |c.relations|
  {
    n == 0 || (FirstRowsExact(acl, c, role, policy, n - 1) && RelationExact(acl, c, role, policy, c.relations[n - 1].name))
  }

  lemma {:induction false} FirstRowsAre(acl: set<Grant>, c: Catalog, role: string, policy: Policy, n: nat)
    requires n <= |c.relations|
    ensures FirstRowsExact(acl, c, role, policy, n) <==> forall k :: 0 <= k < n ==> RelationExact(acl, c, role, policy, c.relations[k].name)
  {
    if n > 0 {
      FirstRowsAre(acl, c, role, policy, n - 1);
    }
  }

  lemma AllRowsExact(acl: set<Grant>, c: Catalog, role: string, policy: Policy)
    ensures FirstRowsExact(acl, c, role, policy, |c.relations|) ==> RelationsExact(acl, c, role, policy)
  {
    FirstRowsAre(acl, c, role, policy, |c.relations|);
  }

  lemma OneRowDiffers(acl: set<Grant>, c: Catalog, role: string, policy: Policy, i: nat)
    requires i < |c.relations| && !RelationExact(acl, c, role, policy, c.relations[i].name)
    ensures !RelationsExact(acl, c, role, policy)
  {
    assert c.relations[i].name in Names(c.relations);
  }

  /** The loop over the rows. */
  method CheckRows(acl: set<Grant>, c: Catalog, role: string, policy: Policy) returns (error: Option<ConfigError>)
    requires policy.Partitioned() && SafeRole(c, role)
    ensures error.None? <==> RelationsExact(acl, c, role, policy)
    ensures error == Some(UnexpectedRelation) ==> exists i :: 0 <= i < |c.relations| && Unclassified(policy, c.relations[i].name)
    ensures error != Some(WatermarkIncomplete)
  {
    AllRowsExact(acl, c, role, policy);
    for i := 0 to |c.relations|
      invariant FirstRowsExact(acl, c, role, policy, i)
    {
      error := CheckRow(acl, c, role, policy, c.relations[i].name);
      if error.Some? {
        OneRowDiffers(acl, c, role, policy, i);
        return;
      }
    }
    error := None;
  }

  lemma SequenceIsWhatTheRoleCanUse(acl: set<Grant>, c: Catalog, role: string, n: string)
    requires SafeRole(c, role)
    ensures forall p :: p in SequencePrivileges(acl, c, role, n) <==> p in SEQUENCE_PRIVILEGES && Has(acl, role, Sequence(SCHEMA, n), p)
  {
    forall p
      ensures Can(acl, c, role, Sequence(SCHEMA, n), p) <==> Has(acl, role, Sequence(SCHEMA, n), p)
    {
      CanIffGranted(acl, c, role, Sequence(SCHEMA, n), p);
    }
  }

  /** The checks on one sequence. */
  method CheckSequence(acl: set<Grant>, c: Catalog, role: string, expected: set<string>, name: string) returns (error: Option<ConfigError>)
    requires SafeRole(c, role)
    ensures error.None? <==> SequenceExact(acl, c, role, expected, name)
    ensures error != Some(UnexpectedRelation) && error != Some(WatermarkIncomplete)
  {
    SequenceIsWhatTheRoleCanUse(acl, c, role, name);
    var canUse := Has(acl, role, Sequence(SCHEMA, name), Usage);
    var canSelect := Has(acl, role, Sequence(SCHEMA, name), Select);
    var canUpdate := Has(acl, role, Sequence(SCHEMA, name), Update);
    assert canUse <==> Usage in SequencePrivileges(acl, c, role, name);
    assert canSelect <==> Select in SequencePrivileges(acl, c, role, name);
    assert canUpdate <==> Update in SequencePrivileges(acl, c, role, name);
    if name in expected {
      if !canUse || !canSelect || canUpdate {
        return Some(SequenceGrantWrong);
      }
    } else if canUse || canSelect || canUpdate {
      return Some(UnexpectedSequence);
    }
    error := None;
  }

  ghost predicate FirstSequencesExact(acl: set<Grant>, c: Catalog, role: string, expected: set<string>, n: nat)
    requires n <= |c.sequences|
  {
    forall k :: 0 <= k < n ==> SequenceExact(acl, c, role, expected, c.sequences[k].name)
  }

  lemma AllSequencesExact(acl: set<Grant>, c: Catalog, role: string, expected: set<string>)
    ensures FirstSequencesExact(acl, c, role, expected, |c.sequences|) <==> SequencesExact(acl, c, role, expected)
  {
    assert forall k :: 0 <= k < |c.sequences| ==> c.sequences[k].name in SequenceNames(c.sequences);
  }

  /** The loop over the sequences. */
  method CheckEachSequence(acl: set<Grant>, c: Catalog, role: string, expected: set<string>) returns (error: Option<ConfigError>)
    requires SafeRole(c, role)
    ensures error.None? <==> SequencesExact(acl, c, role, expected)
    ensures error != Some(UnexpectedRelation) && error != Some(WatermarkIncomplete)
  {
    AllSequencesExact(acl, c, role, expected);
    for i := 0 to |c.sequences|
      invariant FirstSequencesExact(acl, c, role, expected, i)
    {
      error := CheckSequence(acl, c, role, expected, c.sequences[i].name);
      if error.Some? {
        return;
      }
    }
    error := None;
  }

  method CheckSequences(acl: set<Grant>, c: Catalog, role: string, expected: set<string>) returns (error: Option<ConfigError>)
    requires SafeRole(c, role)
    ensures error.None? <==> SequencesExact(acl, c, role, expected) && expected <= SequenceNames(c.sequences)
    ensures error != Some(UnexpectedRelation) && error != Some(WatermarkIncomplete)
  {
    error := CheckEachSequence(acl, c, role, expected);
    if error.None? && SequenceNames(c.sequences) * expected != expected {
      error := Some(SequenceSetChanged);
    }
  }

  // ----- the grants that decide -----

  /** A grant that the contract tolerates. */
  ghost predicate WithinContract(g: Grant, c: Catalog, policy: Policy, sequences: set<string>) {
    match g.on
    case Database(n) => n == c.database ==> g.privilege == Connect
    case Schema(n) => n in c.schemas && UserSchema(n) ==> g.privilege != Create
    case Relation(s, r) => s == SCHEMA ==> g.privilege in Allowed(policy, r)
    case Column(s, r, _) => s == SCHEMA ==> g.privilege in Allowed(policy, r)
    case Sequence(s, n) => s == SCHEMA ==> n in sequences && g.privilege in {Usage, Select}
    case Function(_, _) => g.on !in c.definers
    case Procedure(_, _) => g.on !in c.definers
  }

  /** The grants to PUBLIC, and to the role outside the managed objects, that the sequence leaves alone
      are all within the contract. */
  ghost predicate ResidueWithinContract(acl: set<Grant>, c: Catalog, role: string, policy: Policy, sequences: set<string>) {
    forall g :: g in acl && !Managed(g, role, c.database) && (g.grantee == Role(role) || g.grantee == Public) ==>
      WithinContract(g, c, policy, sequences)
  }

  /** The verifier accepts a configured list if and only if the residue of the prior one is within the contract. */
  lemma AcceptedIffResidueWithinContract(before: set<Grant>, after: set<Grant>, c: Catalog, role: string, policy: Policy, sequences: set<string>)
    requires Consistent(before, c) && policy.Partitioned() && SafeRole(c, role) && Names(c.relations) == policy.Head()
    requires sequences <= SequenceNames(c.sequences)
    requires Configured(before, after, role, c.database, policy, sequences)
    ensures MeetsContract(after, c, role, policy, sequences) <==> ResidueWithinContract(before, c, role, policy, sequences)
  {
    ManagedSchemaIsUserSchema();
    if ResidueWithinContract(before, c, role, policy, sequences) {
      ResidueSuffices(before, after, c, role, policy, sequences);
    }
    if MeetsContract(after, c, role, policy, sequences) {
      forall g | g in before && !Managed(g, role, c.database) && (g.grantee == Role(role) || g.grantee == Public)
        ensures WithinContract(g, c, policy, sequences)
      {
        assert g in after && ObjectExists(g.on, c) && Applies(g.privilege, g.on);
        ResidueNecessary(g, after, c, role, policy, sequences);
      }
    }
  }

  lemma ResidueNecessary(g: Grant, after: set<Grant>, c: Catalog, role: string, policy: Policy, sequences: set<string>)
    requires g in after && (g.grantee == Role(role) || g.grantee == Public)
    requires ObjectExists(g.on, c) && Applies(g.privilege, g.on)
    requires MeetsContract(after, c, role, policy, sequences)
    ensures WithinContract(g, c, policy, sequences)
  {
    assert g == Grant(g.grantee, g.on, g.privilege);
    assert Can(after, c, role, g.on, g.privilege);
    match g.on
    case Column(s, r, _) =>
      if s == SCHEMA {
        assert CanAnyColumn(after, c, role, SCHEMA, r, g.privilege);
        assert g.privilege in ColumnPrivileges(after, c, role, r) && r in Names(c.relations);
      }
    case Sequence(s, n) =>
      if s == SCHEMA {
        assert g.privilege in SequencePrivileges(after, c, role, n);
      }
    case Relation(s, r) =>
      if s == SCHEMA {
        assert g.privilege in TablePrivileges(after, c, role, r);
      }
    case _ =>
  }

  /** Every grant that counts for the role after the sequence is within the contract. */
  ghost predicate AllWithin(after: set<Grant>, c: Catalog, role: string, policy: Policy, sequences: set<string>) {
    forall g :: g in after && (g.grantee == Role(role) || g.grantee == Public) ==> WithinContract(g, c, policy, sequences)
  }

  lemma ConfiguredIsWithin(before: set<Grant>, after: set<Grant>, c: Catalog, role: string, policy: Policy, sequences: set<string>)
    requires Configured(before, after, role, c.database, policy, sequences)
    requires ResidueWithinContract(before, c, role, policy, sequences)
    ensures AllWithin(after, c, role, policy, sequences)
  {
  }

  /** A configured list is consistent again, so that it can be configured a second time. */
  lemma ConfiguredIsConsistent(a: set<Grant>, b: set<Grant>, c: Catalog, role: string, policy: Policy, sequences: set<string>)
    requires Consistent(a, c) && policy.Partitioned() && Names(c.relations) == policy.Head() && sequences <= SequenceNames(c.sequences)
    requires Configured(a, b, role, c.database, policy, sequences)
    ensures Consistent(b, c)
  {
  }

  lemma BoundarySuffices(after: set<Grant>, c: Catalog, role: string, policy: Policy, sequences: set<string>)
    requires Consistent(after, c) && SafeRole(c, role) && AllWithin(after, c, role, policy, sequences)
    requires forall g :: InContract(g, role, c.database, policy, sequences) ==> g in after
    ensures BoundaryExact(after, c, role)
  {
    assert InContract(Grant(Role(role), Database(c.database), Connect), role, c.database, policy, sequences);
    assert InContract(Grant(Role(role), Schema(SCHEMA), Usage), role, c.database, policy, sequences);
    CanIffGranted(after, c, role, Database(c.database), Temporary);
    CanIffGranted(after, c, role, Database(c.database), Create);
    forall s | s in c.schemas && UserSchema(s)
      ensures !Can(after, c, role, Schema(s), Create)
    {
      CanIffGranted(after, c, role, Schema(s), Create);
    }
  }

  lemma NoDefinerSuffices(after: set<Grant>, c: Catalog, role: string, policy: Policy, sequences: set<string>)
    requires Consistent(after, c) && SafeRole(c, role) && AllWithin(after, c, role, policy, sequences)
    ensures NoDefiner(after, c, role)
  {
    forall d | d in c.definers
      ensures !Can(after, c, role, d, Execute)
    {
      CanIffGranted(after, c, role, d, Execute);
    }
  }

  lemma RelationSuffices(after: set<Grant>, c: Catalog, role: string, policy: Policy, sequences: set<string>, r: RelationName)
    requires SafeRole(c, role) && policy.Partitioned() && AllWithin(after, c, role, policy, sequences)
    requires forall g :: InContract(g, role, c.database, policy, sequences) ==> g in after
    ensures RelationExact(after, c, role, policy, r)
  {
    RowIsWhatTheRoleCanDo(after, c, role, r);
    forall p | p in Allowed(policy, r)
      ensures p in RowFor(after, role, r).can
    {
      assert InContract(Grant(Role(role), Relation(SCHEMA, r), p), role, c.database, policy, sequences);
    }
  }

  lemma SequenceSuffices(after: set<Grant>, c: Catalog, role: string, policy: Policy, sequences: set<string>, n: string)
    requires SafeRole(c, role) && AllWithin(after, c, role, policy, sequences)
    requires forall g :: InContract(g, role, c.database, policy, sequences) ==> g in after
    ensures SequenceExact(after, c, role, sequences, n)
  {
    SequenceIsWhatTheRoleCanUse(after, c, role, n);
    forall p | n in sequences && p in {Usage, Select}
      ensures Has(after, role, Sequence(SCHEMA, n), p)
    {
      assert InContract(Grant(Role(role), Sequence(SCHEMA, n), p), role, c.database, policy, sequences);
    }
  }

  lemma ResidueSuffices(before: set<Grant>, after: set<Grant>, c: Catalog, role: string, policy: Policy, sequences: set<string>)
    requires Consistent(before, c) && policy.Partitioned() && SafeRole(c, role) && Names(c.relations) == policy.Head()
    requires sequences <= SequenceNames(c.sequences)
    requires Configured(before, after, role, c.database, policy, sequences)
    requires ResidueWithinContract(before, c, role, policy, sequences)
    ensures MeetsContract(after, c, role, policy, sequences)
  {
    ConfiguredIsConsistent(before, after, c, role, policy, sequences);
    ConfiguredIsWithin(before, after, c, role, policy, sequences);
    BoundarySuffices(after, c, role, policy, sequences);
    NoDefinerSuffices(after, c, role, policy, sequences);
    forall r | r in Names(c.relations)
      ensures RelationExact(after, c, role, policy, r)
    {
      RelationSuffices(after, c, role, policy, sequences, r);
    }
    forall n | n in SequenceNames(c.sequences)
      ensures SequenceExact(after, c, role, sequences, n)
    {
      SequenceSuffices(after, c, role, policy, sequences, n);
    }
  }

  // ----- why the column loop is there -----

  /** The sequence without the column loop. */
  ghost function WithoutColumnLoop(acl: set<Grant>, role: string, database: string, policy: Policy, sequences: set<string>, cascades: bool): set<Grant> {
    DirectResetsAreWellFormed(role, database);
    GrantsAreWellFormed(role, database, policy, sequences);
    EffectOfAll(Grants(role, database, policy, sequences), EffectOfAll(DirectResets(role, database), acl, cascades), cascades)
  }

  lemma {:induction false} UnrevokedStays(ss: seq<Statement>, acl: set<Grant>, cascades: bool, g: Grant)
    requires forall s :: s in ss ==> WellFormed(s)
    requires g in acl && forall s :: s in ss && s.Revoke? ==> !Revokes(s, g, cascades)
    ensures g in EffectOfAll(ss, acl, cascades)
  {
    if ss != [] {
      UnrevokedStays(ss[..|ss| - 1], acl, cascades, g);
    }
  }

  lemma StaleColumnStays(acl: set<Grant>, role: string, database: string, policy: Policy, sequences: set<string>, g: Grant)
    requires g in acl && g.grantee == Role(role) && g.on.Column?
    ensures g in WithoutColumnLoop(acl, role, database, policy, sequences, false)
  {
    DirectResetsAreWellFormed(role, database);
    GrantsAreWellFormed(role, database, policy, sequences);
    UnrevokedStays(DirectResets(role, database), acl, false, g);
    UnrevokedStays(Grants(role, database, policy, sequences), EffectOfAll(DirectResets(role, database), acl, false), false, g);
  }

  /** Where table revokes leave column grants alone, a single stale column grant on a private relation makes the
      verifier refuse the list that the sequence without the column loop leaves, while the full sequence's is accepted. */
  lemma ColumnLoopIsNeeded(c: Catalog, role: string, policy: Policy, sequences: set<string>, r: RelationName, column: string, full: set<Grant>)
    requires policy.Partitioned() && SafeRole(c, role) && Names(c.relations) == policy.Head() && sequences <= SequenceNames(c.sequences)
    requires r in policy.hidden
    requires var stale := {Grant(Role(role), Column(SCHEMA, r, column), Select)};
             Consistent(stale, c) && Configured(stale, full, role, c.database, policy, sequences)
    ensures var stale := {Grant(Role(role), Column(SCHEMA, r, column), Select)};
            && !MeetsContract(WithoutColumnLoop(stale, role, c.database, policy, sequences, false), c, role, policy, sequences)
            && MeetsContract(full, c, role, policy, sequences)
  {
    var g := Grant(Role(role), Column(SCHEMA, r, column), Select);
    var stale := {g};
    AcceptedIffResidueWithinContract(stale, full, c, role, policy, sequences);
    StaleColumnStays(stale, role, c.database, policy, sequences, g);
    var left := WithoutColumnLoop(stale, role, c.database, policy, sequences, false);
    assert Can(left, c, role, g.on, Select) && CanAnyColumn(left, c, role, SCHEMA, r, Select);
    assert Select in COLUMN_PRIVILEGES && r in Names(c.relations) && Select !in Allowed(policy, r);
  }

  // ----- configure_runtime_role -----

  // The immutable target that a caller may pin the configuration to.
  datatype PinnedTarget = PinnedTarget(role: string, database: string)

  /** _require_safe_target_role: the first check that fails decides the error. */
  method RequireSafeTargetRole(c: Catalog, role: string) returns (error: Option<ConfigError>)
    ensures error.None? <==> SafeRole(c, role)
    ensures error == Some(RoleMissing) <==> role !in c.roles
    ensures error == Some(RoleCannotLogin) <==> role in c.roles && !c.roles[role].canLogin
    ensures error == Some(RoleTooPowerful) ==>
              var info := c.roles[role];
              info.superuser || info.createsRoles || info.createsDatabases || info.replicates || info.bypassesRls
    ensures error == Some(RoleHasMembership) ==> c.roles[role].memberOf != {}
    ensures error == Some(RoleOwnsObjects) ==> c.roles[role].owns != {}
    ensures error.Some? ==> error.value in {RoleMissing, RoleCannotLogin, RoleTooPowerful, RoleHasMembership, RoleOwnsObjects}
  {
    if role !in c.roles {
      return Some(RoleMissing);
    }
    var info := c.roles[role];
    if !info.canLogin {
      return Some(RoleCannotLogin);
    }
    if info.superuser || info.createsRoles || info.createsDatabases || info.replicates || info.bypassesRls {
      return Some(RoleTooPowerful);
    }
    if info.memberOf != {} {
      return Some(RoleHasMembership);
    }
    if info.owns != {} {
      return Some(RoleOwnsObjects);
    }
    error := None;
  }

  /** A superuser exceeds the contract whatever is granted, so that no sequence of statements could make it acceptable. */
  lemma SuperuserNeverMeetsContract(acl: set<Grant>, c: Catalog, role: string, policy: Policy, sequences: set<string>)
    requires role in c.roles && c.roles[role].superuser
    ensures !MeetsContract(acl, c, role, policy, sequences)
  {
    assert Can(acl, c, role, Database(c.database), Create);
  }

  /** So does a member of a role that may do what the contract excludes, or the owner of such an object. */
  lemma MembershipCanExceedContract(acl: set<Grant>, c: Catalog, role: string, other: string, r: RelationName, p: Privilege,
                                policy: Policy, sequences: set<string>)
    requires role in c.roles && other in c.roles && other in c.roles[role].memberOf
    requires r in Names(c.relations) && p in TABLE_PRIVILEGES && p !in Allowed(policy, r)
    requires Relation(SCHEMA, r) in c.roles[other].owns || Grant(Role(other), Relation(SCHEMA, r), p) in acl
    ensures !MeetsContract(acl, c, role, policy, sequences)
  {
    var path := [role, other];
    assert MemberPath(c, path) && path[0] == role && path[|path| - 1] == other;
    assert ActsAs(c, role, other);
    assert Can(acl, c, role, Relation(SCHEMA, r), p);
  }

  /** The relations are those of the head, tables and views where they should be. */
  ghost predicate ExactHead(c: Catalog, policy: Policy) {
    && Names(c.relations) == policy.Head()
    && forall i :: 0 <= i < |c.relations| ==>
         c.relations[i].kind == if c.relations[i].name in policy.views then View else Table
  }

  // A sequence of the managed schema together with a table that owns it, as the dependency query returns them.
  function Dependencies(c: Catalog): set<(string, RelationName)> {
    set i, t | 0 <= i < |c.sequences| && t in c.sequences[i].owners :: (c.sequences[i].name, t)
  }

  /** _load_owned_sequences */
  function OwnedSequences(c: Catalog, policy: Policy): (names: set<string>)
    ensures names <= SequenceNames(c.sequences)
  {
    set row | row in Dependencies(c) && row.1 in policy.application :: row.0
  }

  /** A sequence is among them exactly if some application table owns it. */
  lemma SequenceIsOwnedIff(c: Catalog, policy: Policy, n: string)
    ensures n in OwnedSequences(c, policy) <==>
            exists i :: 0 <= i < |c.sequences| && c.sequences[i].name == n && c.sequences[i].owners * policy.application != {}
  {
    if i :| 0 <= i < |c.sequences| && c.sequences[i].name == n && c.sequences[i].owners * policy.application != {} {
      var t :| t in c.sequences[i].owners * policy.application;
      assert (n, t) in Dependencies(c);
    }
    if n in OwnedSequences(c, policy) {
      var t :| (n, t) in Dependencies(c) && t in policy.application;
      var i :| 0 <= i < |c.sequences| && c.sequences[i].name == n && t in c.sequences[i].owners;
      assert t in c.sequences[i].owners * policy.application;
    }
  }

  method LoadRelations(c: Catalog, policy: Policy) returns (r: Result<seq<RelationInfo>, ConfigError>)
    requires policy.Partitioned()
    ensures r.Ok? <==> ExactHead(c, policy)
    ensures r.Ok? ==> r.value == c.relations
    ensures r.Err? ==> r.error == if Names(c.relations) != policy.Head() then RelationsNotExact else KindsNotExact
  {
    if Names(c.relations) != policy.Head() {
      return Err(RelationsNotExact);
    }
    for i := 0 to |c.relations|
      invariant forall k :: 0 <= k < i ==> c.relations[k].kind == if c.relations[k].name in policy.views then View else Table
    {
      var info := c.relations[i];
      assert info.name in policy.Head();
      if info.name in policy.application + policy.hidden + {policy.journal} && info.kind != Table && info.name !in policy.views {
        return Err(KindsNotExact);
      }
      if info.name in policy.views && info.kind != View {
        return Err(KindsNotExact);
      }
    }
    r := Ok(c.relations);
  }

  /** The checks before any statement that changes an access control list. */
  ghost predicate Admissible(c: Catalog, role: string, requested: Option<string>, target: Option<PinnedTarget>,
                             rightConnection: bool, exactHead: bool, policy: Policy) {
    && role != "" && '\0' !in role
    && (target.Some? ==> role == target.value.role && requested == Some(target.value.database) && rightConnection)
    && exactHead && SafeRole(c, role)
    && (requested.Some? && requested.value != "" ==> requested.value == c.database)
    && ExactHead(c, policy)
  }

  /** The transaction. `rightConnection` and `exactHead` are the outcomes of the target assertion and of the
      migration manifest comparison. It commits a list that meets the contract, or changes nothing; and it
      commits exactly when the inputs are admissible and the residue is within the contract. */
  method ConfigureRuntimeRole(conn: Connection, role: string, requested: Option<string>, target: Option<PinnedTarget>,
                              rightConnection: bool, exactHead: bool, policy: Policy) returns (error: Option<ConfigError>)
    requires Consistent(conn.acl, conn.catalog) && policy.Partitioned()
    modifies conn
    ensures error.None? ==> SafeRole(conn.catalog, role)
    ensures var sequences := OwnedSequences(conn.catalog, policy);
      && (error.Some? ==> conn.acl == old(conn.acl))
      && (error.None? ==>
           && Configured(old(conn.acl), conn.acl, role, conn.catalog.database, policy, sequences)
           && MeetsContract(conn.acl, conn.catalog, role, policy, sequences))
      && (error.None? <==>
           && Admissible(conn.catalog, role, requested, target, rightConnection, exactHead, policy)
           && ResidueWithinContract(old(conn.acl), conn.catalog, role, policy, sequences))
  {
    var c := conn.catalog;
    if role == "" || '\0' in role {
      return Some(InvalidRole);
    }
    if target.Some? {
      if role != target.value.role || requested != Some(target.value.database) {
        return Some(TargetMismatch);
      }
      if !rightConnection {
        return Some(WrongConnection);
      }
    }
    if !exactHead {
      return Some(HeadNotExact);
    }
    error := RequireSafeTargetRole(c, role);
    if error.Some? {
      return;
    }
    if requested.Some? && requested.value != "" && requested.value != c.database {
      return Some(DatabaseMismatch);
    }
    var loaded := LoadRelations(c, policy);
    if loaded.Err? {
      return Some(loaded.error);
    }
    if policy.watermark !in policy.application {
      return Some(WatermarkNotApplication);
    }
    var sequences := OwnedSequences(c, policy);
    var saved := conn.acl;
    conn.ResetAndGrant(role, policy, sequences);
    // The head and the role are checked a second time here; both checks read only the catalog, which is the same.
    AcceptedIffResidueWithinContract(saved, conn.acl, c, role, policy, sequences);
    error := VerifyEffectivePrivileges(conn, role, loaded.value, policy, sequences);
    if error.Some? {
      conn.acl := saved;
    }
  }

  /** The transaction with the relation sets of the migration head: the same, and for every server and prior list. */
  method ConfigureWithRuntimePolicy(conn: Connection, role: string, requested: Option<string>, target: Option<PinnedTarget>,
                                    rightConnection: bool, exactHead: bool) returns (error: Option<ConfigError>)
    requires Consistent(conn.acl, conn.catalog)
    modifies conn
    ensures error.Some? ==> conn.acl == old(conn.acl)
    ensures error.None? ==>
              MeetsContract(conn.acl, conn.catalog, role, RUNTIME_POLICY, OwnedSequences(conn.catalog, RUNTIME_POLICY))
    ensures error.None? <==>
              && Admissible(conn.catalog, role, requested, target, rightConnection, exactHead, RUNTIME_POLICY)
              && ResidueWithinContract(old(conn.acl), conn.catalog, role, RUNTIME_POLICY, OwnedSequences(conn.catalog, RUNTIME_POLICY))
  {
    RuntimePolicyIsPartitioned();
    error := ConfigureRuntimeRole(conn, role, requested, target, rightConnection, exactHead, RUNTIME_POLICY);
  }

  /** A successful configuration is accepted again, and changes nothing. */
  lemma SecondRunChangesNothing(a: set<Grant>, b: set<Grant>, d: set<Grant>, c: Catalog, role: string, policy: Policy, sequences: set<string>)
    requires Consistent(a, c) && policy.Partitioned() && SafeRole(c, role) && Names(c.relations) == policy.Head() && sequences <= SequenceNames(c.sequences)
    requires Configured(a, b, role, c.database, policy, sequences) && Configured(b, d, role, c.database, policy, sequences)
    requires MeetsContract(b, c, role, policy, sequences)
    ensures d == b && ResidueWithinContract(b, c, role, policy, sequences)
  {
    ConfiguringIsIdempotent(a, b, d, role, c.database, policy, sequences);
    AcceptedIffResidueWithinContract(a, b, c, role, policy, sequences);
    ResidueStays(a, b, c, role, policy, sequences);
  }

  lemma ResidueStays(a: set<Grant>, b: set<Grant>, c: Catalog, role: string, policy: Policy, sequences: set<string>)
    requires Configured(a, b, role, c.database, policy, sequences) && ResidueWithinContract(a, c, role, policy, sequences)
    ensures ResidueWithinContract(b, c, role, policy, sequences)
  {
  }

  lemma ConfiguredIsFixed(a: set<Grant>, b: set<Grant>, role: string, database: string, policy: Policy, sequences: set<string>)
    requires Configured(a, b, role, database, policy, sequences)
    ensures Configured(b, b, role, database, policy, sequences)
  {
  }

  /** Running the configuration twice: the second run succeeds if the first did, and changes nothing. */
  method ConfigureTwice(conn: Connection, role: string, requested: Option<string>, target: Option<PinnedTarget>,
                        rightConnection: bool, exactHead: bool, policy: Policy)
    returns (first: Option<ConfigError>, second: Option<ConfigError>, ghost mid: set<Grant>)
    requires Consistent(conn.acl, conn.catalog) && policy.Partitioned()
    modifies conn
    ensures first.None? <==> second.None?
    ensures conn.acl == mid
    ensures first.None? ==> Configured(old(conn.acl), mid, role, conn.catalog.database, policy, OwnedSequences(conn.catalog, policy))
    ensures first.Some? ==> mid == old(conn.acl)
  {
    ghost var sequences := OwnedSequences(conn.catalog, policy);
    ghost var start := conn.acl;
    first := ConfigureRuntimeRole(conn, role, requested, target, rightConnection, exactHead, policy);
    mid := conn.acl;
    if first.None? {
      ConfiguredIsConsistent(start, mid, conn.catalog, role, policy, sequences);
      ConfiguredIsFixed(start, mid, role, conn.catalog.database, policy, sequences);
      SecondRunChangesNothing(start, mid, mid, conn.catalog, role, policy, sequences);
    }
    second := ConfigureRuntimeRole(conn, role, requested, target, rightConnection, exactHead, policy);
    if first.None? {
      ConfiguringIsIdempotent(start, mid, conn.acl, role, conn.catalog.database, policy, sequences);
    }
  }
}
