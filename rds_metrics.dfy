// The RDS metrics of the awsx CloudWatch helpers (nodejs/awsx/rds/metrics.ts):
// every helper builds an "AWS/RDS" metric of its name, with its own default
// unit (and, for failed SQL Server Agent jobs, period) under the caller's
// change, filtered by exactly the dimensions the caller names.
module RdsMetrics {
  import opened Wrappers
  import M = MetricChanges

  /**
   * `RdsMetricChange`: the instance and cluster (by id), the role, database
   * class, engine name and source region to filter on, and the metric change.
   */
  datatype RdsMetricChange = RdsMetricChange(
    instance: Option<string>, cluster: Option<string>, role: Option<string>, databaseClass: Option<string>,
    engineName: Option<string>, sourceRegion: Option<string>, change: M.MetricChange)

  /** The empty change `{}`. */
  const NoRdsChange: RdsMetricChange := RdsMetricChange(None, None, None, None, None, None, M.NoChange)

  /** The dimensions an RDS metric can be filtered by. */
  datatype Dimension = DBClusterIdentifier | DBInstanceIdentifier | Role | DatabaseClass | EngineName | SourceRegion

  /** The dimension's key in the dimensions record. */
  function DimensionKey(d: Dimension): string
  {
    match d
    case DBClusterIdentifier => "DBClusterIdentifier"
    case DBInstanceIdentifier => "DBInstanceIdentifier"
    case Role => "Role"
    case DatabaseClass => "DatabaseClass"
    case EngineName => "EngineName"
    case SourceRegion => "SourceRegion"
  }

  /** Distinct dimensions have distinct keys, so the record has one key per dimension given. */
  lemma DimensionKeysDistinct(d: Dimension, e: Dimension)
    ensures d != e ==> DimensionKey(d) != DimensionKey(e)
  {
  }

  /** The filter a change gives for a dimension, if any. */
  function Filter(change: RdsMetricChange, d: Dimension): Option<string>
  {
    match d
    case DBClusterIdentifier => change.cluster
    case DBInstanceIdentifier => change.instance
    case Role => change.role
    case DatabaseClass => change.databaseClass
    case EngineName => change.engineName
    case SourceRegion => change.sourceRegion
  }

  const AllDimensions: set<Dimension> :=
    {DBClusterIdentifier, DBInstanceIdentifier, Role, DatabaseClass, EngineName, SourceRegion}

  /** Every dimension is one of the six. */
  lemma DimensionListed(d: Dimension)
    ensures d in AllDimensions
  {
    match d
    case DBClusterIdentifier =>
    case DBInstanceIdentifier =>
    case Role =>
    case DatabaseClass =>
    case EngineName =>
    case SourceRegion =>
  }

  /**
   * The dimensions `metric` collects: the key of each filter the change
   * gives, with its value, and no other key.
   */
  function Dimensions(change: RdsMetricChange): (r: map<Dimension, string>)
    ensures forall d :: d in r <==> Filter(change, d).Some?
    ensures forall d :: d in r ==> r[d] == Filter(change, d).value
  {
    assert forall d: Dimension :: d in AllDimensions by {
      forall d: Dimension ensures d in AllDimensions {
        DimensionListed(d);
      }
    }
    map d | d in AllDimensions && Filter(change, d).Some? :: Filter(change, d).value
  }

  /** An RDS metric: its arguments, then the dimensions given to `withDimensions`. */
  datatype MetricRequest = MetricRequest(args: M.MetricArgs, dimensions: map<Dimension, string>)

  /** `metric(metricName, change = {})`: an "AWS/RDS" metric of that name, with the change's fields and its dimensions. */
  function Metric(metricName: string, change: Option<RdsMetricChange>): (r: MetricRequest)
    ensures r.args.namespace == "AWS/RDS" && r.args.name == metricName
    ensures r.args.change == change.GetOr(NoRdsChange).change
    ensures r.dimensions == Dimensions(change.GetOr(NoRdsChange))
  {
    var given := change.GetOr(NoRdsChange);
    MetricRequest(M.MetricArgs("AWS/RDS", metricName, given.change), Dimensions(given))
  }

  /** The exported per-metric helpers, one per metric, named after the metric they build. */
  datatype Helper =
    | BinLogDiskUsage
    | BurstBalance
    | CPUUtilization
    | CPUCreditUsage
    | CPUCreditBalance
    | DatabaseConnections
    | DiskQueueDepth
    | FailedSQLServerAgentJobsCount
    | FreeableMemory
    | FreeStorageSpace
    | MaximumUsedTransactionIDs
    | NetworkReceiveThroughput
    | NetworkTransmitThroughput
    | OldestReplicationSlotLag
    | ReadIOPS
    | ReadLatency
    | ReadThroughput
    | ReplicaLag
    | ReplicationSlotDiskUsage
    | SwapUsage
    | TransactionLogsDiskUsage
    | TransactionLogsGeneration
    | WriteIOPS
    | WriteLatency
    | WriteThroughput
    | ActiveTransactions
    | AuroraBinlogReplicaLag
    | AuroraGlobalDBReplicatedWriteIO
    | AuroraGlobalDBDataTransferBytes
    | AuroraGlobalDBReplicationLag
    | AuroraReplicaLag
    | AuroraReplicaLagMaximum
    | AuroraReplicaLagMinimum
    | BacktrackChangeRecordsCreationRate
    | BacktrackChangeRecordsStored
    | BacktrackWindowActual
    | BacktrackWindowAlert
    | BackupRetentionPeriodStorageUsed
    | BlockedTransactions
    | BufferCacheHitRatio
    | CommitLatency
    | CommitThroughput
    | DDLLatency
    | DDLThroughput
    | Deadlocks
    | DeleteLatency
    | DeleteThroughput
    | DMLLatency
    | DMLThroughput
    | EngineUptime
    | FreeLocalStorage
    | InsertLatency
    | InsertThroughput
    | LoginFailures
    | NetworkThroughput
    | Queries
    | RDSToAuroraPostgreSQLReplicaLag
    | ResultSetCacheHitRatio
    | SelectLatency
    | SelectThroughput
    | SnapshotStorageUsed
    | TotalBackupStorageBilled
    | UpdateLatency
    | UpdateThroughput
    | VolumeBytesUsed
    | VolumeReadIOPs
    | VolumeWriteIOPs

  /** The metric a helper builds. */
  function MetricName(helper: Helper): string
  {
    match helper
    case BinLogDiskUsage => "BinLogDiskUsage"
    case BurstBalance => "BurstBalance"
    case CPUUtilization => "CPUUtilization"
    case CPUCreditUsage => "CPUCreditUsage"
    case CPUCreditBalance => "CPUCreditBalance"
    case DatabaseConnections => "DatabaseConnections"
    case DiskQueueDepth => "DiskQueueDepth"
    case FailedSQLServerAgentJobsCount => "FailedSQLServerAgentJobsCount"
    case FreeableMemory => "FreeableMemory"
    case FreeStorageSpace => "FreeStorageSpace"
    case MaximumUsedTransactionIDs => "MaximumUsedTransactionIDs"
    case NetworkReceiveThroughput => "NetworkReceiveThroughput"
    case NetworkTransmitThroughput => "NetworkTransmitThroughput"
    case OldestReplicationSlotLag => "OldestReplicationSlotLag"
    case ReadIOPS => "ReadIOPS"
    case ReadLatency => "ReadLatency"
    case ReadThroughput => "ReadThroughput"
    case ReplicaLag => "ReplicaLag"
    case ReplicationSlotDiskUsage => "ReplicationSlotDiskUsage"
    case SwapUsage => "SwapUsage"
    case TransactionLogsDiskUsage => "TransactionLogsDiskUsage"
    case TransactionLogsGeneration => "TransactionLogsGeneration"
    case WriteIOPS => "WriteIOPS"
    case WriteLatency => "WriteLatency"
    case WriteThroughput => "WriteThroughput"
    case ActiveTransactions => "ActiveTransactions"
    case AuroraBinlogReplicaLag => "AuroraBinlogReplicaLag"
    case AuroraGlobalDBReplicatedWriteIO => "AuroraGlobalDBReplicatedWriteIO"
    case AuroraGlobalDBDataTransferBytes => "AuroraGlobalDBDataTransferBytes"
    case AuroraGlobalDBReplicationLag => "AuroraGlobalDBReplicationLag"
    case AuroraReplicaLag => "AuroraReplicaLag"
    case AuroraReplicaLagMaximum => "AuroraReplicaLagMaximum"
    case AuroraReplicaLagMinimum => "AuroraReplicaLagMinimum"
    case BacktrackChangeRecordsCreationRate => "BacktrackChangeRecordsCreationRate"
    case BacktrackChangeRecordsStored => "BacktrackChangeRecordsStored"
    case BacktrackWindowActual => "BacktrackWindowActual"
    case BacktrackWindowAlert => "BacktrackWindowAlert"
    case BackupRetentionPeriodStorageUsed => "BackupRetentionPeriodStorageUsed"
    case BlockedTransactions => "BlockedTransactions"
    case BufferCacheHitRatio => "BufferCacheHitRatio"
    case CommitLatency => "CommitLatency"
    case CommitThroughput => "CommitThroughput"
    case DDLLatency => "DDLLatency"
    case DDLThroughput => "DDLThroughput"
    case Deadlocks => "Deadlocks"
    case DeleteLatency => "DeleteLatency"
    case DeleteThroughput => "DeleteThroughput"
    case DMLLatency => "DMLLatency"
    case DMLThroughput => "DMLThroughput"
    case EngineUptime => "EngineUptime"
    case FreeLocalStorage => "FreeLocalStorage"
    case InsertLatency => "InsertLatency"
    case InsertThroughput => "InsertThroughput"
    case LoginFailures => "LoginFailures"
    case NetworkThroughput => "NetworkThroughput"
    case Queries => "Queries"
    case RDSToAuroraPostgreSQLReplicaLag => "RDSToAuroraPostgreSQLReplicaLag"
    case ResultSetCacheHitRatio => "ResultSetCacheHitRatio"
    case SelectLatency => "SelectLatency"
    case SelectThroughput => "SelectThroughput"
    case SnapshotStorageUsed => "SnapshotStorageUsed"
    case TotalBackupStorageBilled => "TotalBackupStorageBilled"
    case UpdateLatency => "UpdateLatency"
    case UpdateThroughput => "UpdateThroughput"
    case VolumeBytesUsed => "VolumeBytesUsed"
    case VolumeReadIOPs => "VolumeReadIOPs"
    case VolumeWriteIOPs => "VolumeWriteIOPs"
  }

  /** The unit a helper puts before the caller's change, if any. */
  function DefaultUnit(helper: Helper): Option<string>
  {
    match helper
    case BinLogDiskUsage => Some("Bytes")
    case BurstBalance => Some("Percent")
    case CPUUtilization => Some("Percent")
    case CPUCreditUsage => None
    case CPUCreditBalance => None
    case DatabaseConnections => Some("Count")
    case DiskQueueDepth => Some("Count")
    case FailedSQLServerAgentJobsCount => Some("Count")
    case FreeableMemory => Some("Bytes")
    case FreeStorageSpace => Some("Bytes")
    case MaximumUsedTransactionIDs => Some("Count")
    case NetworkReceiveThroughput => Some("Bytes/Second")
    case NetworkTransmitThroughput => Some("Bytes/Second")
    case OldestReplicationSlotLag => Some("Megabytes")
    case ReadIOPS => Some("Count/Second")
    case ReadLatency => Some("Seconds")
    case ReadThroughput => Some("Bytes/Second")
    case ReplicaLag => Some("Seconds")
    case ReplicationSlotDiskUsage => Some("Megabytes")
    case SwapUsage => Some("Bytes")
    case TransactionLogsDiskUsage => Some("Megabytes")
    case TransactionLogsGeneration => Some("Megabytes/Second")
    case WriteIOPS => Some("Count/Second")
    case WriteLatency => Some("Seconds")
    case WriteThroughput => Some("Bytes/Second")
    case ActiveTransactions => None
    case AuroraBinlogReplicaLag => None
    case AuroraGlobalDBReplicatedWriteIO => Some("Bytes")
    case AuroraGlobalDBDataTransferBytes => Some("Bytes")
    case AuroraGlobalDBReplicationLag => Some("Milliseconds")
    case AuroraReplicaLag => Some("Milliseconds")
    case AuroraReplicaLagMaximum => Some("Milliseconds")
    case AuroraReplicaLagMinimum => Some("Milliseconds")
    case BacktrackChangeRecordsCreationRate => None
    case BacktrackChangeRecordsStored => None
    case BacktrackWindowActual => None
    case BacktrackWindowAlert => None
    case BackupRetentionPeriodStorageUsed => Some("Gigabytes")
    case BlockedTransactions => None
    case BufferCacheHitRatio => None
    case CommitLatency => Some("Milliseconds")
    case CommitThroughput => None
    case DDLLatency => None
    case DDLThroughput => None
    case Deadlocks => None
    case DeleteLatency => Some("Milliseconds")
    case DeleteThroughput => None
    case DMLLatency => Some("Milliseconds")
    case DMLThroughput => None
    case EngineUptime => Some("Seconds")
    case FreeLocalStorage => Some("Bytes")
    case InsertLatency => Some("Milliseconds")
    case InsertThroughput => None
    case LoginFailures => None
    case NetworkThroughput => Some("Bytes/Second")
    case Queries => None
    case RDSToAuroraPostgreSQLReplicaLag => None
    case ResultSetCacheHitRatio => None
    case SelectLatency => None
    case SelectThroughput => None
    case SnapshotStorageUsed => Some("Gigabytes")
    case TotalBackupStorageBilled => Some("Gigabytes")
    case UpdateLatency => None
    case UpdateThroughput => None
    case VolumeBytesUsed => Some("Bytes")
    case VolumeReadIOPs => None
    case VolumeWriteIOPs => None
  }

  /**
   * The defaults a helper puts before the caller's change: its unit, and a
   * period of 60 for failed SQL Server Agent jobs.
   */
  function DefaultsFor(helper: Helper): (r: M.MetricChange)
    ensures r.unit == DefaultUnit(helper) && r.statistic.None?
    ensures r.period.Some? <==> helper == FailedSQLServerAgentJobsCount
    ensures r.period.Some? ==> r.period.value == 60
  {
    M.MetricChange(if helper == FailedSQLServerAgentJobsCount then Some(60) else None, None, DefaultUnit(helper))
  }

  /** `{ ...defaults, ...change }` on an RDS change: the filters are the caller's, the metric fields spread. */
  function WithDefaults(defaults: M.MetricChange, change: Option<RdsMetricChange>): (r: RdsMetricChange)
    ensures r.change == M.Spread(defaults, change.GetOr(NoRdsChange).change)
    ensures r.(change := M.NoChange) == change.GetOr(NoRdsChange).(change := M.NoChange)
  {
    var given := change.GetOr(NoRdsChange);
    given.(change := M.Spread(defaults, given.change))
  }

  /**
   * An exported helper such as `cpuUtilization(change?)`: the metric "AWS/RDS"
   * under the helper's own name, whose dimensions are exactly the caller's
   * filters;
   * each of the caller's period, statistic and unit wins over the helper's
   * default, which stands where the caller gives none.
   */
  function HelperMetric(helper: Helper, change: Option<RdsMetricChange>): (r: MetricRequest)
    ensures r.args.namespace == "AWS/RDS" && r.args.name == MetricName(helper)
    ensures r.dimensions == Dimensions(change.GetOr(NoRdsChange))
    ensures r.args.change.period == (if change.Some? && change.value.change.period.Some? then change.value.change.period else DefaultsFor(helper).period)
    ensures r.args.change.statistic ==
      (if change.Some? && change.value.change.statistic.Some? then change.value.change.statistic else DefaultsFor(helper).statistic)
    ensures r.args.change.unit == (if change.Some? && change.value.change.unit.Some? then change.value.change.unit else DefaultsFor(helper).unit)
  {
    var given := change.GetOr(NoRdsChange);
    SameFiltersSameDimensions(WithDefaults(DefaultsFor(helper), change), given);
    Metric(MetricName(helper), Some(WithDefaults(DefaultsFor(helper), change)))
  }

  /** Two changes with the same filters have the same dimensions, whatever their metric fields. */
  lemma SameFiltersSameDimensions(a: RdsMetricChange, b: RdsMetricChange)
    requires a.(change := M.NoChange) == b.(change := M.NoChange)
    ensures Dimensions(a) == Dimensions(b)
  {
    assert forall d :: Filter(a, d) == Filter(a.(change := M.NoChange), d) == Filter(b, d);
  }

  /** `failedSQLServerAgentJobsCount` counts over 60-second periods; `cpuUtilization` is a percentage. */
  lemma FixedDefaults()
    ensures DefaultsFor(FailedSQLServerAgentJobsCount) == M.MetricChange(Some(60), None, Some("Count"))
    ensures HelperMetric(FailedSQLServerAgentJobsCount, None).args ==
      M.MetricArgs("AWS/RDS", "FailedSQLServerAgentJobsCount", M.MetricChange(Some(60), None, Some("Count")))
    ensures HelperMetric(CPUUtilization, None).args.change.unit == Some("Percent")
  {
  }
}
