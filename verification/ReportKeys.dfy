/** The approved report keys pass the content scan. */
module ReportKeys {
  import opened ContentScan
  import opened AuditReports

  lemma Completed() ensures MildKey("completed") { assert Lacks("completed", 'a'); }
  lemma TotalRows() ensures MildKey("total_rows") { assert Lacks("total_rows", 'd'); }
  lemma AcceptedCount() ensures MildKey("accepted_count") { assert Lacks("accepted_count", 'm'); assert Lacks("accepted_count", 'w'); }
  lemma RejectedCount() ensures MildKey("rejected_count") { assert Lacks("rejected_count", 'a'); }
  lemma RejectionRate() ensures MildKey("rejection_rate") { assert Lacks("rejection_rate", 'd'); }
  lemma RejectionDetails() ensures MildKey("rejection_details") { assert Lacks("rejection_details", 'm'); assert Lacks("rejection_details", 'w'); }
  lemma SourceFile() ensures MildKey("source_file") { assert Lacks("source_file", 'd'); }
  lemma DurationSeconds() ensures MildKey("duration_seconds") { assert Lacks("duration_seconds", 'm'); assert Lacks("duration_seconds", 'w'); }
  lemma EventTypeCounts() ensures MildKey("event_type_counts") { assert Lacks("event_type_counts", 'd'); }
  lemma LabelCounts() ensures MildKey("label_counts") { assert Lacks("label_counts", 'd'); }
  lemma AttackCategoryCounts() ensures MildKey("attack_category_counts") { assert Lacks("attack_category_counts", 'd'); }
  lemma ProtocolCounts() ensures MildKey("protocol_counts") { assert Lacks("protocol_counts", 'd'); }
  lemma NumericRanges() ensures MildKey("numeric_ranges") { assert Lacks("numeric_ranges", 'd'); }
  lemma EarliestSourceTimestamp() ensures MildKey("earliest_source_timestamp") { assert Lacks("earliest_source_timestamp", 'd'); }
  lemma LatestSourceTimestamp() ensures MildKey("latest_source_timestamp") { assert Lacks("latest_source_timestamp", 'd'); }
  lemma Dataset() ensures MildKey("dataset") { assert Lacks("dataset", 'm'); assert Lacks("dataset", 'w'); }
  lemma BenchmarkRole() ensures MildKey("benchmark_role") { assert Lacks("benchmark_role", 'd'); }
  lemma NetworkBehaviorV1FeatureOrder() ensures MildKey("network_behavior_v1_feature_order") { assert Lacks("network_behavior_v1_feature_order", 'm'); assert Lacks("network_behavior_v1_feature_order", 'p'); }
  lemma TimestampSemantics() ensures MildKey("timestamp_semantics") { assert Lacks("timestamp_semantics", 'd'); }
  lemma Files() ensures MildKey("files") { assert Lacks("files", 'd'); }
  lemma Combined() ensures MildKey("combined") { assert Lacks("combined", 'a'); }
  lemma TotalInputRows() ensures MildKey("total_input_rows") { assert Lacks("total_input_rows", 'd'); }
  lemma CanonicalLabelCounts() ensures MildKey("canonical_label_counts") { assert Lacks("canonical_label_counts", 'd'); }
  lemma RawNumericLabelCounts() ensures MildKey("raw_numeric_label_counts") { assert Lacks("raw_numeric_label_counts", 'd'); }
  lemma ServiceCounts() ensures MildKey("service_counts") { assert Lacks("service_counts", 'd'); }
  lemma ConnectionStateCounts() ensures MildKey("connection_state_counts") { assert Lacks("connection_state_counts", 'd'); }
  lemma BlankOptionalAttackCategoryCount() ensures MildKey("blank_optional_attack_category_count") { assert Lacks("blank_optional_attack_category_count", 'd'); }
  lemma EarliestTimestamp() ensures MildKey("earliest_timestamp") { assert Lacks("earliest_timestamp", 'd'); }
  lemma LatestTimestamp() ensures MildKey("latest_timestamp") { assert Lacks("latest_timestamp", 'd'); }
  lemma LabelInconsistencyCounts() ensures MildKey("label_inconsistency_counts") { assert Lacks("label_inconsistency_counts", 'd'); }
  lemma LabelInconsistencyExamples() ensures MildKey("label_inconsistency_examples") { assert Lacks("label_inconsistency_examples", 'd'); }
  lemma Classification() ensures MildKey("classification") { assert Lacks("classification", 'd'); }
  lemma EventIdCounts() ensures MildKey("event_id_counts") { assert Lacks("event_id_counts", 'a'); }
  lemma EventIdOverflowCount() ensures MildKey("event_id_overflow_count") { assert Lacks("event_id_overflow_count", 'a'); }
  lemma FieldPresenceCounts() ensures MildKey("field_presence_counts") { assert Lacks("field_presence_counts", 'a'); }
  lemma ProcessEventCount() ensures MildKey("process_event_count") { assert Lacks("process_event_count", 'd'); }
  lemma SessionCount() ensures MildKey("session_count") { assert Lacks("session_count", 'd'); }
  lemma Sessions() ensures MildKey("sessions") { assert Lacks("sessions", 'd'); }
  lemma HostBehaviorV1Aggregate() ensures MildKey("host_behavior_v1_aggregate") { assert Lacks("host_behavior_v1_aggregate", 'd'); }
  lemma QualityGates() ensures MildKey("quality_gates") { assert Lacks("quality_gates", 'd'); }
  lemma TrainingQualityGates() ensures MildKey("training_quality_gates") { assert Lacks("training_quality_gates", 'd'); }
  lemma Configured() ensures MildKey("configured") { assert Lacks("configured", 'a'); }
  lemma Results() ensures MildKey("results") { assert Lacks("results", 'd'); }
  lemma Passed() ensures MildKey("passed") { assert Lacks("passed", 'm'); assert Lacks("passed", 'w'); }
  lemma Observed() ensures MildKey("observed") { assert Lacks("observed", 'a'); }

  predicate AllMild(keys: set<string>) { forall k :: k in keys ==> MildKey(k) }

  lemma SessionKeysAreMild()
    ensures AllMild(SYNTHETIC_SESSION_KEYS)
  {
    SourceFile(); Completed(); TotalRows(); AcceptedCount(); RejectedCount(); DurationSeconds(); EventTypeCounts();
  }

  lemma CicFileKeysAreMild()
    ensures AllMild(CIC_FILE_PROFILE_KEYS)
  {
    SourceFile(); Completed(); TotalRows(); AcceptedCount(); RejectedCount(); RejectionRate(); RejectionDetails(); LabelCounts(); AttackCategoryCounts(); ProtocolCounts(); NumericRanges(); EarliestSourceTimestamp(); LatestSourceTimestamp();
  }

  lemma CicKeysAreMild()
    ensures AllMild(CIC_PROFILE_KEYS)
  {
    Dataset(); BenchmarkRole(); NetworkBehaviorV1FeatureOrder(); TimestampSemantics(); Files(); Combined();
  }

  lemma UnswKeysAreMild()
    ensures AllMild(UNSW_PROFILE_KEYS)
  {
    Completed(); TotalInputRows(); AcceptedCount(); RejectedCount(); RejectionRate(); RejectionDetails(); CanonicalLabelCounts(); RawNumericLabelCounts(); AttackCategoryCounts(); ProtocolCounts(); ServiceCounts(); ConnectionStateCounts(); BlankOptionalAttackCategoryCount(); NumericRanges(); EarliestTimestamp(); LatestTimestamp(); LabelInconsistencyCounts(); LabelInconsistencyExamples();
  }

  lemma MordorKeysAreMild()
    ensures AllMild(MORDOR_PROFILE_KEYS)
  {
    Dataset(); SourceFile(); Classification(); Completed(); TotalRows(); AcceptedCount(); RejectedCount(); RejectionRate(); RejectionDetails(); EventIdCounts(); EventIdOverflowCount(); FieldPresenceCounts(); ProcessEventCount(); EarliestTimestamp(); LatestTimestamp();
  }

  lemma SyntheticKeysAreMild()
    ensures AllMild(SYNTHETIC_PROFILE_KEYS)
  {
    Dataset(); Classification(); Completed(); TotalRows(); AcceptedCount(); RejectedCount(); RejectionRate(); RejectionDetails(); SessionCount(); Sessions(); EventTypeCounts(); LabelCounts(); HostBehaviorV1Aggregate(); QualityGates(); TrainingQualityGates();
  }

  lemma GateKeysAreMild()
    ensures AllMild(TRAINING_GATE_KEYS)
  {
    Configured(); Observed(); Results(); Passed();
  }
}
