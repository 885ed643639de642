/** The stages of the telemetry feed and their ranks. */
module Telemetry {

  datatype Stage =
    | StageReceived | SignatureVerified | Published | Injected | Rejected | Malformed | Unavailable
    | Consuming | ProcessingDecision | StageProcessed | StageDuplicate | StageRetry | StageDead

  function StageRank(s: Stage): nat {
    match s
    case StageReceived => 0
    case SignatureVerified => 1
    case Malformed => 1
    case Rejected => 1
    case Published => 2
    case Injected => 2
    case Unavailable => 2
    case Consuming => 3
    case ProcessingDecision => 4
    case StageRetry => 5
    case StageProcessed => 6
    case StageDuplicate => 6
    case StageDead => 6
  }

  predicate IsTerminal(s: Stage) {
    s == StageProcessed || s == StageDuplicate || s == StageDead || s == Rejected || s == Malformed || s == Unavailable
  }

  predicate IsWorkerStage(s: Stage) {
    s.Consuming? || s.ProcessingDecision? || s.StageProcessed? || s.StageDuplicate? || s.StageRetry? || s.StageDead?
  }

  datatype Tier = FiveSeconds | ThirtySeconds | TwoMinutes

  function TierOf(attempts: int): Tier {
    if attempts <= 1 then FiveSeconds else if attempts == 2 then ThirtySeconds else TwoMinutes
  }

  function TierMs(t: Tier): nat {
    match t
    case FiveSeconds => 5_000
    case ThirtySeconds => 30_000
    case TwoMinutes => 120_000
  }
}
