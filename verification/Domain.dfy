/**
 Shared entities of the congestion system (src/types/models.ts).

 Instants are integer milliseconds. People counts and capacities are exact reals, scores are
 the integers that rounding leaves. Identifiers are opaque non-empty strings, so a present
 identifier is a truthy one; composite string keys and ids are tuples.
 */
module Domain {

  datatype Option<+T> = None | Some(value: T)

  type GateId = string
  type RouteId = string
  type FanId = string
  type UserId = string
  type Time = int

  /** The durations that results are stated in; the source's own constants are written out where it has them. */
  const SECOND: int := 1000
  const MINUTE: int := 60 * SECOND

  datatype RiskLevel = LOW | MODERATE | HIGH | CRITICAL

  /** The numeric order shared by the intake queue and the gate comparison. */
  function Order(risk: RiskLevel): int {
    match risk
    case LOW => 0
    case MODERATE => 1
    case HIGH => 2
    case CRITICAL => 3
  }

  /** Membership in the source's HIGH_OR_CRITICAL sets. */
  predicate IsHot(risk: RiskLevel) {
    risk == HIGH || risk == CRITICAL
  }

  datatype Payload =
    | GateCounter(count: real)
    | TicketScan(fanId: FanId)
    | TransitArrival(passengers: real, destination: Option<GateId>, fanIds: Option<seq<FanId>>)

  datatype SignalEvent = SignalEvent(
    signalId: string,
    gateId: Option<GateId>,
    timestamp: Time,
    isStale: bool,
    payload: Payload)

  datatype Gate = Gate(gateId: GateId, capacityThreshold: real, assignedRouteIds: seq<RouteId>)

  datatype ScorePoint = ScorePoint(
    gateId: GateId,
    forecastTime: Time,
    offsetMinutes: int,
    score: int,
    risk: RiskLevel,
    lowConfidence: bool,
    outdated: bool)

  datatype ForecastResult = ForecastResult(scores: seq<ScorePoint>, lowConfidence: bool)

  type Forecasts = map<GateId, ForecastResult>

  /** The risk a reader sees for a forecast: LOW when there is no current point. */
  function RiskOf(forecast: ForecastResult): RiskLevel {
    if forecast.scores == [] then LOW else forecast.scores[0].risk
  }

  /** The score a reader sees for a forecast: 0 when there is no current point. */
  function ScoreOf(forecast: ForecastResult): int {
    if forecast.scores == [] then 0 else forecast.scores[0].score
  }

  function GateRisk(forecasts: Forecasts, gate: GateId): RiskLevel {
    if gate in forecasts then RiskOf(forecasts[gate]) else LOW
  }

  function GateScore(forecasts: Forecasts, gate: GateId): int {
    if gate in forecasts then ScoreOf(forecasts[gate]) else 0
  }
}
