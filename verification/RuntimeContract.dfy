/** The relations of the migration head and the privilege contract of the runtime role.
    Each constructor of RelationName stands for the relation of that name in snake case
    (AcquisitionAttempts for acquisition_attempts); OtherRelation is any other name. */
module RuntimeContract {

  datatype RelationName =
    | AcquisitionAttempts | Artifacts | BlockEvidenceLinks | BlockInterpretations | BrandCanonicalSelections
    | Brands | CaptureFingerprints | Captures | ComponentEvaluations | EvaluationComparisons | EvaluationRuns
    | EvidenceClaimReconciliationEvents | EvidenceClaimTileLedgerStates | EvidenceClaimTileMappingObservations
    | EvidenceClaimTileMappingSeries | EvidenceClaimTileMappings | EvidenceClaimTileReviewEvents
    | EvidenceClaimTileReviewPackets | EvidenceLedgerShadowEntries | EvidenceLedgerShadowObservations
    | EvidenceLedgerShadowStates | EvidenceMemoryAdjudicationEvents | EvidenceRecords
    | EvidenceScoringRecoveryReviewEvents | EvidenceScoringRecoverySupplementPackets
    | EvidenceVaultCanonicalMemoryPackets | EvidenceVaultCanonicalMemoryPromotionEvents
    | EvidenceVaultCanonicalScoreEvaluations | EvidenceVaultCaptureWatermarkEvents
    | EvidenceVaultOperationPlans | EvidenceVaultOperationalRelationReviews
    | EvidenceVaultOperationalSourceCaptureLineageBindings
    | EvidenceVaultOperationalSourceCaptureLineageMembers | ReportSnapshots | ScanRuns | TileVerdicts
    | Workspaces | EvidenceVaultEvidenceLedgerRows | EvidenceVaultSv9EvaluationCheckpointEvidenceBindings
    | EvidenceVaultSv9EvaluationCheckpoints | EvidenceVaultSv9SharedAnalysisSnapshots
    | EvidenceVaultSv9JudgmentAuthorityEvents | EvidenceVaultSv9JudgmentCandidates
    | EvidenceVaultSv9JudgmentEvidenceBindings | EvidenceVaultSv9JudgmentReviewResolutions | BrandCurrentState
    | BrandHistory | EvidenceVaultSv9JudgmentActivePartitionV1 | EvidenceVaultSv9JudgmentActiveSeriesV1
    | EvidenceVaultOperationalSv9ShadowDiagnosticsV1 | EvidenceVaultRawAcquisitionReceipts
    | EvidenceVaultRawEvidenceBindings | EvidenceVaultVerifiedC7LineageBindings
    | EvidenceVaultVerifiedC7LineageMembers | EvidenceVaultRawProvenanceDispositionEvents
    | EvidenceVaultOperationalSv9ShadowAssessments | SchemaMigrations
    | OtherRelation(name: string)

  const APPEND_ONLY_JUDGMENT_RELATIONS: set<RelationName> := {
    EvidenceVaultEvidenceLedgerRows, EvidenceVaultSv9EvaluationCheckpointEvidenceBindings,
    EvidenceVaultSv9EvaluationCheckpoints, EvidenceVaultSv9SharedAnalysisSnapshots,
    EvidenceVaultSv9JudgmentAuthorityEvents, EvidenceVaultSv9JudgmentCandidates,
    EvidenceVaultSv9JudgmentEvidenceBindings, EvidenceVaultSv9JudgmentReviewResolutions
  }
  const WATERMARK_TABLE: RelationName := EvidenceVaultCaptureWatermarkEvents
  const PRIVATE_SHADOW_LEDGER_RELATIONS: set<RelationName> := { EvidenceVaultOperationalSv9ShadowAssessments }
  const RAW_MIGRATION_019_RELATIONS: set<RelationName> := {
    EvidenceVaultRawAcquisitionReceipts, EvidenceVaultRawEvidenceBindings,
    EvidenceVaultVerifiedC7LineageBindings, EvidenceVaultVerifiedC7LineageMembers,
    EvidenceVaultRawProvenanceDispositionEvents
  }
  const EXPECTED_APPLICATION_TABLES: set<RelationName> := {
    AcquisitionAttempts, Artifacts, BlockEvidenceLinks, BlockInterpretations, BrandCanonicalSelections, Brands,
    CaptureFingerprints, Captures, ComponentEvaluations, EvaluationComparisons, EvaluationRuns,
    EvidenceClaimReconciliationEvents, EvidenceClaimTileLedgerStates, EvidenceClaimTileMappingObservations,
    EvidenceClaimTileMappingSeries, EvidenceClaimTileMappings, EvidenceClaimTileReviewEvents,
    EvidenceClaimTileReviewPackets, EvidenceLedgerShadowEntries, EvidenceLedgerShadowObservations,
    EvidenceLedgerShadowStates, EvidenceMemoryAdjudicationEvents, EvidenceRecords,
    EvidenceScoringRecoveryReviewEvents, EvidenceScoringRecoverySupplementPackets,
    EvidenceVaultCanonicalMemoryPackets, EvidenceVaultCanonicalMemoryPromotionEvents,
    EvidenceVaultCanonicalScoreEvaluations, EvidenceVaultCaptureWatermarkEvents, EvidenceVaultOperationPlans,
    EvidenceVaultOperationalRelationReviews, EvidenceVaultOperationalSourceCaptureLineageBindings,
    EvidenceVaultOperationalSourceCaptureLineageMembers, ReportSnapshots, ScanRuns, TileVerdicts, Workspaces
  } + APPEND_ONLY_JUDGMENT_RELATIONS
  const EXPECTED_READ_ONLY_VIEWS: set<RelationName> := {
    BrandCurrentState, BrandHistory, EvidenceVaultSv9JudgmentActivePartitionV1,
    EvidenceVaultSv9JudgmentActiveSeriesV1, EvidenceVaultOperationalSv9ShadowDiagnosticsV1
  }
  const MIGRATION_JOURNAL: RelationName := SchemaMigrations

  /** The relation classes that the privilege contract distinguishes. */
  datatype Policy = Policy(
    application: set<RelationName>,
    appendOnly: set<RelationName>,
    views: set<RelationName>,
    hidden: set<RelationName>,     // raw provenance and private shadow ledger
    journal: RelationName,
    watermark: RelationName)
  {
    function ReadOnly(): set<RelationName> {
      views + {journal}
    }

    function Head(): set<RelationName> {
      application + views + hidden + {journal}
    }

    /** The classes do not overlap, and the watermark table is an ordinary application table. */
    predicate Partitioned() {
      && appendOnly <= application
      && application !! hidden && application !! ReadOnly() && hidden !! ReadOnly()
      && watermark in application - appendOnly
    }
  }

  const RUNTIME_POLICY: Policy := Policy(
    EXPECTED_APPLICATION_TABLES, APPEND_ONLY_JUDGMENT_RELATIONS, EXPECTED_READ_ONLY_VIEWS,
    RAW_MIGRATION_019_RELATIONS + PRIVATE_SHADOW_LEDGER_RELATIONS, MIGRATION_JOURNAL, WATERMARK_TABLE)

  datatype RelationClass = Ordinary | AppendOnly | ReadOnly | Hidden | Unknown

  /** The one class of each relation name. */
  function ClassOf(r: RelationName): RelationClass {
    match r
    case EvidenceVaultEvidenceLedgerRows | EvidenceVaultSv9EvaluationCheckpointEvidenceBindings |
       EvidenceVaultSv9EvaluationCheckpoints | EvidenceVaultSv9SharedAnalysisSnapshots |
       EvidenceVaultSv9JudgmentAuthorityEvents | EvidenceVaultSv9JudgmentCandidates |
       EvidenceVaultSv9JudgmentEvidenceBindings | EvidenceVaultSv9JudgmentReviewResolutions => AppendOnly
    case BrandCurrentState | BrandHistory | EvidenceVaultSv9JudgmentActivePartitionV1 |
       EvidenceVaultSv9JudgmentActiveSeriesV1 | EvidenceVaultOperationalSv9ShadowDiagnosticsV1 |
       SchemaMigrations => ReadOnly
    case EvidenceVaultOperationalSv9ShadowAssessments | EvidenceVaultRawAcquisitionReceipts |
       EvidenceVaultRawEvidenceBindings | EvidenceVaultVerifiedC7LineageBindings |
       EvidenceVaultVerifiedC7LineageMembers | EvidenceVaultRawProvenanceDispositionEvents => Hidden
    case OtherRelation(_) => Unknown
    case _ => Ordinary
  }

  lemma AppendOnlyMembers(r: RelationName)
    ensures r in APPEND_ONLY_JUDGMENT_RELATIONS <==> ClassOf(r) == AppendOnly
  {
  }

  lemma ApplicationMembers(r: RelationName)
    ensures r in EXPECTED_APPLICATION_TABLES <==> ClassOf(r) == Ordinary || ClassOf(r) == AppendOnly
  {
    AppendOnlyMembers(r);
  }

  lemma ReadOnlyMembers(r: RelationName)
    ensures r in EXPECTED_READ_ONLY_VIEWS + {MIGRATION_JOURNAL} <==> ClassOf(r) == ReadOnly
  {
  }

  lemma HiddenMembers(r: RelationName)
    ensures r in RAW_MIGRATION_019_RELATIONS + PRIVATE_SHADOW_LEDGER_RELATIONS <==> ClassOf(r) == Hidden
  {
  }

  /** The policy's sets are the classes of ClassOf. */
  ghost predicate FollowsClasses(p: Policy) {
    forall r ::
      && (r in p.appendOnly <==> ClassOf(r) == AppendOnly)
      && (r in p.application <==> ClassOf(r) == Ordinary || ClassOf(r) == AppendOnly)
      && (r in p.ReadOnly() <==> ClassOf(r) == ReadOnly)
      && (r in p.hidden <==> ClassOf(r) == Hidden)
  }

  lemma ClassesPartition(p: Policy)
    requires FollowsClasses(p) && ClassOf(p.watermark) == Ordinary
    ensures p.Partitioned()
    ensures forall r :: r in p.Head() <==> ClassOf(r) != Unknown
  {
  }

  /** The literal name sets put every relation of the head in exactly one class, and no other relation in any. */
  lemma RuntimePolicyIsPartitioned()
    ensures RUNTIME_POLICY.Partitioned()
    ensures forall r :: r in RUNTIME_POLICY.Head() <==> ClassOf(r) != Unknown
  {
    forall r
      ensures r in RUNTIME_POLICY.appendOnly <==> ClassOf(r) == AppendOnly
      ensures r in RUNTIME_POLICY.application <==> ClassOf(r) == Ordinary || ClassOf(r) == AppendOnly
      ensures r in RUNTIME_POLICY.ReadOnly() <==> ClassOf(r) == ReadOnly
      ensures r in RUNTIME_POLICY.hidden <==> ClassOf(r) == Hidden
    {
      AppendOnlyMembers(r);
      ApplicationMembers(r);
      ReadOnlyMembers(r);
      HiddenMembers(r);
    }
    ClassesPartition(RUNTIME_POLICY);
  }
}
