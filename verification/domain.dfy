/**
 * The records the application passes around: ideas, their pain points and
 * validation signals, and the opaque strategy payloads the planners attach.
 * Field names follow the database columns of the `ideas`, `pain_points` and
 * `validation_signals` tables.
 */
module Domain {
  import opened Wrappers

  /** An integer score constrained to 0..10 by the pain_points table. */
  type Score = x: int | 0 <= x <= 10

  /** The five tags the `type` column of validation_signals admits. */
  datatype SignalType = Survey | Interview | LandingPage | Prototype | Other

  /**
   * One validation signal. Of its JSON `result` payload only
   * `conversion_rate` is ever read, so only that is kept; it is absent for
   * every kind except a landing-page test.
   */
  datatype Signal = Signal(kind: SignalType, conversionRate: Option<real>, timestamp: string)

  datatype PainPoint = PainPoint(category: string, description: string,
                                 impact: Score, willingnessToPay: Score, frequency: Score)

  /** A generated pricing strategy; only `revenue_projections.month_12` is read. */
  datatype PricingStrategy = PricingStrategy(month12: Option<int>, details: string)

  /**
   * A generated acquisition strategy. Only the keys of its `timeline`
   * object are given meaning (they are shown as labels); the rest is opaque.
   */
  datatype AcquisitionStrategy = AcquisitionStrategy(timeline: seq<(string, string)>, details: string)

  /** A recorded validation outcome; only its `stage` is read. */
  datatype ValidationRecord = ValidationRecord(stage: string, details: string)

  /**
   * An idea as held in the client's list. Columns of the `ideas` table come
   * first; `painPoints` and `signals` are present only when the list was
   * loaded with its joined children; the last three exist only locally.
   */
  datatype Idea = Idea(
    id: Option<string>,
    name: string,
    description: string,
    category: string,
    stage: string,
    revenue: Option<int>,
    targetUsers: Option<int>,
    createdAt: Option<string>,
    updatedAt: Option<string>,
    painPoints: Option<seq<PainPoint>>,
    signals: Option<seq<Signal>>,
    pricingStrategy: Option<PricingStrategy>,
    acquisitionStrategy: Option<AcquisitionStrategy>,
    validationData: Option<ValidationRecord>)

  /** A row of the `ideas` table as returned by an insert or update. */
  datatype Row = Row(
    id: string,
    name: string,
    description: string,
    category: string,
    stage: string,
    revenue: Option<int>,
    targetUsers: Option<int>,
    createdAt: string,
    updatedAt: string)

  /** The four values the `validation_stage` column admits. */
  const Initial: string := "initial"
  const Testing: string := "testing"
  const Validated: string := "validated"
  const Rejected: string := "rejected"

  predicate IsStage(s: string) {
    s == Initial || s == Testing || s == Validated || s == Rejected
  }

  /** JavaScript's `x || 0` on a nullable number: absent and zero both read as 0. */
  function OrZero(x: Option<int>): int {
    match x
    case Some(v) => v
    case None => 0
  }

  /** Whether an idea carries the given id; an idea without an id matches nothing. */
  predicate HasId(idea: Idea, id: string) {
    idea.id == Some(id)
  }
}
