// Job types, failure categories and settings: jobs/registry.py, jobs/errors.py
// and the job section of core/config.py.

module JobRegistry {
  import opened Outcomes

  datatype JobType =
    | AnalysisGenerate
    | DocumentEmbed
    | DocumentIngest
    | TrainingPrepare
    | VastSessionStart
    | WatchlistEvaluate

  datatype Category =
    | PermanentInput
    | PermanentAuthorization
    | RetryableInfrastructure
    | RetryableProvider
    | UncertainExternalSideEffect
    | CancellationObserved
    | LeaseLoss

  datatype Worker = Worker(allowedTypes: set<JobType>, organization: Option<string>, maxConcurrency: nat)

  datatype Settings = Settings(
    globalPending: nat, globalRunning: nat,
    providerPending: nat, providerRunning: nat,
    userPending: nat, userRunning: nat,
    orgPending: nat, orgRunning: nat,
    leaseSeconds: nat, heartbeatSeconds: nat,
    queueAgeSeconds: nat, maxAttempts: nat, scanLimit: nat,
    retryBase: nat, retryMax: nat,
    analysisRuntime: nat,
    vastStartup: nat, vastGrace: nat, cleanupGrace: nat,
    vastHourlyMicrousd: nat, vastMinutes: nat,
    dailyBudget: nat,
    analysesPerDay: nat, anonymousAnalysesPerDay: nat,
    quotaAdminExempt: bool,
    workers: map<string, Worker>,
    jitter: map<(nat, nat), nat>  // the hash of a job id and an attempt number
  )

  // The checks made when the settings are loaded.
  predicate ValidSettings(cfg: Settings) {
    && cfg.maxAttempts >= 1
    && cfg.heartbeatSeconds >= 1
    && cfg.leaseSeconds >= cfg.heartbeatSeconds
    && cfg.analysisRuntime >= cfg.leaseSeconds
    && cfg.scanLimit >= 1
    && cfg.retryBase >= 1
    && cfg.retryMax >= cfg.retryBase
  }

  // JobTypeSpec.execution_horizon_seconds with the registered runtime caps.
  function HorizonSeconds(cfg: Settings, t: JobType): nat {
    match t
    case VastSessionStart => cfg.vastStartup + cfg.vastGrace + cfg.cleanupGrace
    case TrainingPrepare => 90
    case _ => cfg.analysisRuntime
  }

  function RetryableCategories(t: JobType): set<Category> {
    if t == VastSessionStart then {RetryableInfrastructure, RetryableProvider} else {RetryableInfrastructure}
  }

  function AcceptedCategories(t: JobType): set<Category> {
    {PermanentInput, PermanentAuthorization, RetryableInfrastructure} +
    if t == VastSessionStart then {RetryableProvider, UncertainExternalSideEffect} else {}
  }

  // _estimated_job_cost_microusd: the hourly cap for the whole session, rounded up.
  function EstimatedCost(cfg: Settings, t: JobType): nat {
    if t == VastSessionStart then (cfg.vastHourlyMicrousd * cfg.vastMinutes + 59) / 60 else 0
  }
}
