/** The reset-and-grant sequence of the runtime role configuration, and what it leaves behind
    for every prior access control list. */
module RuntimeReset {
  import opened RuntimeContract
  import opened RuntimeAcl

  // ----- the statements -----

  function RevokeFrom(privileges: Privileges, target: Target, role: string): Statement {
    Revoke(privileges, target, Role(role))
  }

  function DirectResets(role: string, database: string): seq<Statement> {
    [ RevokeFrom(All, OnDatabase(database), role),
      Revoke(These({Temporary}), OnDatabase(database), Public),
      RevokeFrom(All, OnSchema(SCHEMA), role),
      RevokeFrom(These({Create}), OnSchema(SCHEMA), role),
      RevokeFrom(All, AllTablesIn(SCHEMA), role),
      RevokeFrom(All, AllSequencesIn(SCHEMA), role),
      RevokeFrom(All, AllFunctionsIn(SCHEMA), role) ]
  }

  /** One statement for each of the first n relations that has columns. */
  function ColumnResets(role: string, relations: seq<RelationInfo>, n: nat): seq<Statement>
    requires n <= |relations|
  {
    if n == 0 then []
    else if relations[n - 1].columns == [] then ColumnResets(role, relations, n - 1)
    else ColumnResets(role, relations, n - 1) + [ColumnReset(role, relations[n - 1])]
  }

  function ColumnReset(role: string, relation: RelationInfo): Statement {
    RevokeFrom(All, OnColumns(SCHEMA, relation.name, relation.columns), role)
  }

  /** GRANT on a list of objects that may be empty; the statement is skipped if it is. */
  function IfAny(target: Target, privileges: set<Privilege>, role: string): seq<Statement>
    requires target.OnTables? || target.OnSequences?
  {
    if (target.OnTables? && target.relations == {}) || (target.OnSequences? && target.names == {}) then []
    else [Give(privileges, target, Role(role))]
  }

  function FirstGives(role: string, database: string, policy: Policy): seq<Statement> {
    [Give({Connect}, OnDatabase(database), Role(role))]
    + [Give({Usage}, OnSchema(SCHEMA), Role(role))]
    + IfAny(OnTables(SCHEMA, policy.application - policy.appendOnly), {Select, Insert, Update, Delete}, role)
  }

  function Gives(role: string, database: string, policy: Policy, sequences: set<string>): seq<Statement> {
    FirstGives(role, database, policy)
    + [Give({Select, Insert}, OnTables(SCHEMA, policy.appendOnly), Role(role))]
    + IfAny(OnSequences(SCHEMA, sequences), {Usage, Select}, role)
    + [Give({Select}, OnTables(SCHEMA, policy.ReadOnly()), Role(role))]
  }

  function Grants(role: string, database: string, policy: Policy, sequences: set<string>): seq<Statement> {
    Gives(role, database, policy, sequences)
    + [RevokeFrom(These({Insert, Update, Delete}), OnTables(SCHEMA, {policy.journal}), role)]
    + [RevokeFrom(All, OnTables(SCHEMA, policy.hidden), role)]
  }

  // ----- the contract -----

  /** What the role may do with a relation, by class. */
  function Allowed(policy: Policy, r: RelationName): set<Privilege> {
    if r in policy.appendOnly then {Select, Insert}
    else if r in policy.application then {Select, Insert, Update, Delete}
    else if r in policy.ReadOnly() then {Select}
    else {}
  }

  /** The grants that make up the contract. */
  ghost predicate InContract(g: Grant, role: string, database: string, policy: Policy, sequences: set<string>) {
    g.grantee == Role(role) &&
    match g.on
    case Database(n) => n == database && g.privilege == Connect
    case Schema(n) => n == SCHEMA && g.privilege == Usage
    case Relation(s, r) => s == SCHEMA && r in policy.application + policy.ReadOnly() && g.privilege in Allowed(policy, r)
    case Sequence(s, n) => s == SCHEMA && n in sequences && g.privilege in {Usage, Select}
    case _ => false
  }

  /** The grants that the sequence takes away or replaces. */
  predicate Managed(g: Grant, role: string, database: string) {
    || g == Grant(Public, Database(database), Temporary)
    || (g.grantee == Role(role) &&
        match g.on
        case Database(n) => n == database
        case Schema(n) => n == SCHEMA
        case Relation(s, _) => s == SCHEMA
        case Column(s, _, _) => s == SCHEMA
        case Sequence(s, _) => s == SCHEMA
        case Function(s, _) => s == SCHEMA
        case Procedure(_, _) => false)
  }

  /** Exactly what the sequence leaves: the contract's grants, and of the prior ones those it does not manage. */
  ghost predicate Configured(before: set<Grant>, after: set<Grant>, role: string, database: string, policy: Policy, sequences: set<string>) {
    forall g :: g in after <==> InContract(g, role, database, policy, sequences) || (g in before && !Managed(g, role, database))
  }

  // ----- each part of the sequence -----

  lemma DirectResetsAreWellFormed(role: string, database: string)
    ensures forall s :: s in DirectResets(role, database) ==> WellFormed(s)
  {
  }

  /** What the direct resets leave, whether or not table revokes cascade to columns. */
  lemma AfterDirectResets(role: string, database: string, acl: set<Grant>, cascades: bool, g: Grant)
    requires forall s :: s in DirectResets(role, database) ==> WellFormed(s)
    ensures g in EffectOfAll(DirectResets(role, database), acl, cascades) <==>
            g in acl && (!Managed(g, role, database) || (g.on.Column? && g.grantee == Role(role) && g.on.schema == SCHEMA && !cascades))
  {
    var ss := DirectResets(role, database);
    var a := acl;
    assert ss[..0] == [];
    for i := 0 to |ss|
      invariant a == EffectOfAll(ss[..i], acl, cascades)
      invariant g in a <==> g in acl && forall k :: 0 <= k < i ==> !Revokes(ss[k], g, cascades)
    {
      assert ss[..i + 1][..i] == ss[..i] && ss[..i + 1][i] == ss[i];
      a := Effect(ss[i], a, cascades);
    }
    assert ss[..|ss|] == ss;
    assert ss[0].Revoke? && ss[1].Revoke? && ss[2].Revoke? && ss[3].Revoke? && ss[4].Revoke? && ss[5].Revoke? && ss[6].Revoke?;
  }

  lemma {:induction false} ColumnResetsAreWellFormed(role: string, relations: seq<RelationInfo>, n: nat)
    requires n <= |relations|
    ensures forall s :: s in ColumnResets(role, relations, n) ==> WellFormed(s)
  {
    if n != 0 {
      ColumnResetsAreWellFormed(role, relations, n - 1);
    }
  }

  predicate OnListedColumn(g: Grant, role: string, relations: seq<RelationInfo>, n: nat)
    requires n <= |relations|
  {
    && g.grantee == Role(role) && g.on.Column? && g.on.schema == SCHEMA
    && exists i | 0 <= i < n :: relations[i].name == g.on.relation && g.on.column in relations[i].columns
  }

  /** The column loop removes the role's grants on every listed column and nothing else. */
  lemma {:induction false} AfterColumnResets(role: string, relations: seq<RelationInfo>, n: nat, acl: set<Grant>, cascades: bool, g: Grant)
    requires n <= |relations|
    ensures forall s :: s in ColumnResets(role, relations, n) ==> WellFormed(s)
    ensures g in EffectOfAll(ColumnResets(role, relations, n), acl, cascades) <==> g in acl && !OnListedColumn(g, role, relations, n)
  {
    ColumnResetsAreWellFormed(role, relations, n);
    if n != 0 {
      AfterColumnResets(role, relations, n - 1, acl, cascades, g);
      if relations[n - 1].columns != [] {
        EffectOfOneMore(ColumnResets(role, relations, n - 1), ColumnReset(role, relations[n - 1]), acl, cascades);
      }
    }
  }

  /** One more GRANT in the list, skipped or not, seen by one grant. */
  lemma AfterGive(ss: seq<Statement>, ps: set<Privilege>, t: Target, role: string, acl: set<Grant>, cascades: bool, g: Grant, more: seq<Statement>)
    requires forall s :: s in ss ==> WellFormed(s)
    requires Grantable(t)
    requires more == [Give(ps, t, Role(role))] || ((t.OnTables? || t.OnSequences?) && more == IfAny(t, ps, role))
    ensures forall s :: s in ss + more ==> WellFormed(s)
    ensures g in EffectOfAll(ss + more, acl, cascades) <==>
            g in EffectOfAll(ss, acl, cascades) || (g.grantee == Role(role) && g.on in Objects(t) && g.privilege in ps)
  {
    if more == [] {
      assert ss + more == ss;
    } else {
      EffectOfOneMore(ss, Give(ps, t, Role(role)), acl, cascades);
      if g.grantee == Role(role) && g.on in Objects(t) && g.privilege in ps {
        assert g == Grant(Role(role), g.on, g.privilege);
      }
    }
  }

  lemma GrantsAreWellFormed(role: string, database: string, policy: Policy, sequences: set<string>)
    ensures forall s :: s in Grants(role, database, policy, sequences) ==> WellFormed(s)
  {
  }

  lemma AfterFirstGives(role: string, database: string, policy: Policy, acl: set<Grant>, cascades: bool, g: Grant)
    ensures forall s :: s in FirstGives(role, database, policy) ==> WellFormed(s)
    ensures g in EffectOfAll(FirstGives(role, database, policy), acl, cascades) <==>
      || g in acl
      || (g.grantee == Role(role) && (
           || (g.on == Database(database) && g.privilege == Connect)
           || (g.on == Schema(SCHEMA) && g.privilege == Usage)
           || (g.on in Objects(OnTables(SCHEMA, policy.application - policy.appendOnly)) && g.privilege in {Select, Insert, Update, Delete})))
  {
    var ordinary, dml := policy.application - policy.appendOnly, {Select, Insert, Update, Delete};
    var g1 := [Give({Connect}, OnDatabase(database), Role(role))];
    assert [] + g1 == g1;
    AfterGive([], {Connect}, OnDatabase(database), role, acl, cascades, g, g1);
    var m2 := [Give({Usage}, OnSchema(SCHEMA), Role(role))];
    AfterGive(g1, {Usage}, OnSchema(SCHEMA), role, acl, cascades, g, m2);
    AfterGive(g1 + m2, dml, OnTables(SCHEMA, ordinary), role, acl, cascades, g, IfAny(OnTables(SCHEMA, ordinary), dml, role));
  }

  lemma AfterGives(role: string, database: string, policy: Policy, sequences: set<string>, acl: set<Grant>, cascades: bool, g: Grant)
    requires policy.Partitioned()
    ensures forall s :: s in Gives(role, database, policy, sequences) ==> WellFormed(s)
    ensures g in EffectOfAll(Gives(role, database, policy, sequences), acl, cascades) <==>
            g in acl || InContract(g, role, database, policy, sequences)
  {
    var first := FirstGives(role, database, policy);
    AfterFirstGives(role, database, policy, acl, cascades, g);
    var m4 := [Give({Select, Insert}, OnTables(SCHEMA, policy.appendOnly), Role(role))];
    AfterGive(first, {Select, Insert}, OnTables(SCHEMA, policy.appendOnly), role, acl, cascades, g, m4);
    var m5 := IfAny(OnSequences(SCHEMA, sequences), {Usage, Select}, role);
    AfterGive(first + m4, {Usage, Select}, OnSequences(SCHEMA, sequences), role, acl, cascades, g, m5);
    var m6 := [Give({Select}, OnTables(SCHEMA, policy.ReadOnly()), Role(role))];
    AfterGive(first + m4 + m5, {Select}, OnTables(SCHEMA, policy.ReadOnly()), role, acl, cascades, g, m6);
    GivenIsContract(role, database, policy, sequences, g);
  }

  /** From a list without managed grants, the grants lead to exactly the contract beside what was there. */
  lemma AfterGrants(role: string, database: string, policy: Policy, sequences: set<string>, acl: set<Grant>, cascades: bool, g: Grant)
    requires policy.Partitioned()
    requires g in acl ==> !Managed(g, role, database)
    ensures forall s :: s in Grants(role, database, policy, sequences) ==> WellFormed(s)
    ensures g in EffectOfAll(Grants(role, database, policy, sequences), acl, cascades) <==>
            g in acl || InContract(g, role, database, policy, sequences)
  {
    var gives := Gives(role, database, policy, sequences);
    AfterGives(role, database, policy, sequences, acl, cascades, g);
    var r7 := RevokeFrom(These({Insert, Update, Delete}), OnTables(SCHEMA, {policy.journal}), role);
    var r8 := RevokeFrom(All, OnTables(SCHEMA, policy.hidden), role);
    EffectOfOneMore(gives, r7, acl, cascades);
    EffectOfOneMore(gives + [r7], r8, acl, cascades);
    if g in acl || InContract(g, role, database, policy, sequences) {
      FinalRevokesTakeNothing(role, database, policy, sequences, cascades, g);
    }
  }

  /** The six grants together are the contract. */
  lemma GivenIsContract(role: string, database: string, policy: Policy, sequences: set<string>, g: Grant)
    requires policy.Partitioned()
    ensures InContract(g, role, database, policy, sequences) <==>
      g.grantee == Role(role) && (
        || (g.on == Database(database) && g.privilege == Connect)
        || (g.on == Schema(SCHEMA) && g.privilege == Usage)
        || (g.on in Objects(OnTables(SCHEMA, policy.application - policy.appendOnly)) && g.privilege in {Select, Insert, Update, Delete})
        || (g.on in Objects(OnTables(SCHEMA, policy.appendOnly)) && g.privilege in {Select, Insert})
        || (g.on in Objects(OnSequences(SCHEMA, sequences)) && g.privilege in {Usage, Select})
        || (g.on in Objects(OnTables(SCHEMA, policy.ReadOnly())) && g.privilege in {Select}))
  {
  }

  lemma FinalRevokesTakeNothing(role: string, database: string, policy: Policy, sequences: set<string>, cascades: bool, g: Grant)
    requires policy.Partitioned()
    requires !Managed(g, role, database) || InContract(g, role, database, policy, sequences)
    ensures !Revokes(RevokeFrom(These({Insert, Update, Delete}), OnTables(SCHEMA, {policy.journal}), role), g, cascades)
    ensures !Revokes(RevokeFrom(All, OnTables(SCHEMA, policy.hidden), role), g, cascades)
  {
  }

  // ----- the whole sequence -----

  /** A column that a consistent list grants on is one that the column loop visits. */
  lemma EveryColumnIsListed(acl: set<Grant>, c: Catalog, role: string, g: Grant)
    requires Consistent(acl, c) && g in acl
    ensures g.grantee == Role(role) && g.on.Column? && g.on.schema == SCHEMA <==> OnListedColumn(g, role, c.relations, |c.relations|)
  {
  }

  /** Whatever the list was, and whether or not table revokes reach columns, the sequence leaves the contract's
      grants and the prior grants that it does not manage. */
  lemma SequenceConfigures(acl: set<Grant>, c: Catalog, role: string, policy: Policy, sequences: set<string>, cascades: bool)
    requires Consistent(acl, c) && policy.Partitioned()
    ensures forall s :: s in DirectResets(role, c.database) ==> WellFormed(s)
    ensures forall s :: s in ColumnResets(role, c.relations, |c.relations|) ==> WellFormed(s)
    ensures forall s :: s in Grants(role, c.database, policy, sequences) ==> WellFormed(s)
    ensures
      var a1 := EffectOfAll(DirectResets(role, c.database), acl, cascades);
      var a2 := EffectOfAll(ColumnResets(role, c.relations, |c.relations|), a1, cascades);
      Configured(acl, EffectOfAll(Grants(role, c.database, policy, sequences), a2, cascades), role, c.database, policy, sequences)
  {
    DirectResetsAreWellFormed(role, c.database);
    ColumnResetsAreWellFormed(role, c.relations, |c.relations|);
    GrantsAreWellFormed(role, c.database, policy, sequences);
    var a1 := EffectOfAll(DirectResets(role, c.database), acl, cascades);
    var a2 := EffectOfAll(ColumnResets(role, c.relations, |c.relations|), a1, cascades);
    forall g
      ensures g in EffectOfAll(Grants(role, c.database, policy, sequences), a2, cascades) <==>
              InContract(g, role, c.database, policy, sequences) || (g in acl && !Managed(g, role, c.database))
    {
      AfterDirectResets(role, c.database, acl, cascades, g);
      AfterColumnResets(role, c.relations, |c.relations|, a1, cascades, g);
      if g in acl {
        EveryColumnIsListed(acl, c, role, g);
      }
      AfterGrants(role, c.database, policy, sequences, a2, cascades, g);
    }
  }

  class Connection {
    var acl: set<Grant>
    const catalog: Catalog
    const cascades: bool   // whether this server's REVOKE on a table also reaches its columns

    constructor (acl: set<Grant>, catalog: Catalog, cascades: bool)
      ensures this.acl == acl && this.catalog == catalog && this.cascades == cascades
    {
      this.acl, this.catalog, this.cascades := acl, catalog, cascades;
    }

    method Execute(s: Statement)
      requires WellFormed(s)
      modifies this
      ensures acl == Effect(s, old(acl), cascades)
    {
      acl := Effect(s, acl, cascades);
    }

    method ExecuteAll(ss: seq<Statement>)
      requires forall s :: s in ss ==> WellFormed(s)
      modifies this
      ensures acl == EffectOfAll(ss, old(acl), cascades)
    {
      assert ss[..0] == [];
      for i := 0 to |ss|
        invariant acl == EffectOfAll(ss[..i], old(acl), cascades)
      {
        assert ss[..i + 1][..i] == ss[..i] && ss[..i + 1][i] == ss[i];
        Execute(ss[i]);
      }
      assert ss[..|ss|] == ss;
    }

    /** The loop over the relations; relations without columns are skipped. */
    method ResetColumns(role: string)
      modifies this
      ensures forall s :: s in ColumnResets(role, catalog.relations, |catalog.relations|) ==> WellFormed(s)
      ensures acl == EffectOfAll(ColumnResets(role, catalog.relations, |catalog.relations|), old(acl), cascades)
    {
      var rs := catalog.relations;
      for i := 0 to |rs|
        invariant forall s :: s in ColumnResets(role, rs, i) ==> WellFormed(s)
        invariant acl == EffectOfAll(ColumnResets(role, rs, i), old(acl), cascades)
      {
        ColumnResetsAreWellFormed(role, rs, i + 1);
        if rs[i].columns != [] {
          EffectOfOneMore(ColumnResets(role, rs, i), ColumnReset(role, rs[i]), old(acl), cascades);
          Execute(ColumnReset(role, rs[i]));
        }
      }
    }

    method ResetAndGrant(role: string, policy: Policy, sequences: set<string>)
      requires Consistent(acl, catalog) && policy.Partitioned()
      modifies this
      ensures Configured(old(acl), acl, role, catalog.database, policy, sequences)
    {
      SequenceConfigures(acl, catalog, role, policy, sequences, cascades);
      ExecuteAll(DirectResets(role, catalog.database));
      ResetColumns(role);
      ExecuteAll(Grants(role, catalog.database, policy, sequences));
    }
  }

  // ----- consequences -----

  /** The role's direct grants in the managed schema and on the database do not depend on what they were. */
  lemma DirectGrantsAreConstant(before: set<Grant>, after: set<Grant>, role: string, database: string, policy: Policy, sequences: set<string>, g: Grant)
    requires Configured(before, after, role, database, policy, sequences)
    requires g.grantee == Role(role) && Managed(g, role, database)
    ensures g in after <==> InContract(g, role, database, policy, sequences)
  {
  }

  /** Nobody else's grants change, except that PUBLIC loses TEMPORARY on the database. */
  lemma OthersKeepTheirGrants(before: set<Grant>, after: set<Grant>, role: string, database: string, policy: Policy, sequences: set<string>, g: Grant)
    requires Configured(before, after, role, database, policy, sequences) && g.grantee != Role(role)
    ensures g in after <==> g in before && g != Grant(Public, Database(database), Temporary)
  {
  }

  /** Configuring twice is configuring once. */
  lemma ConfiguringIsIdempotent(a: set<Grant>, b: set<Grant>, c: set<Grant>, role: string, database: string, policy: Policy, sequences: set<string>)
    requires Configured(a, b, role, database, policy, sequences) && Configured(b, c, role, database, policy, sequences)
    ensures c == b
  {
  }
}
