/**
 KPI agreements: drafting areas and metrics by hand or by import, submission and acceptance, recorded
 actuals and the cached score of each metric. Decimals are exact reals and every call is atomic here.
 */
module KpiAgreements {
  import opened Common
  import KpiScoring

  // ---- Records -----------------------------------------------------------------------

  datatype Metric = Metric(id: nat, definitionId: Option<nat>, description: string, weight: real, target: real,
      actualScore: Option<real>)

  datatype Area = Area(id: nat, name: string, weight: real, sortOrder: int, metrics: seq<Metric>)

  datatype Status = Draft | PendingReview | Active

  datatype Agreement = Agreement(tenantId: nat, engineerId: nat, leadId: nat, period: string, status: Status,
      areas: seq<Area>)

  datatype Source = Manual | TicketResolve | TaskComplete

  datatype Actual = Actual(metricId: nat, value: real, source: Source)

  datatype ImportRow = ImportRow(description: string, weight: real, target: real)

  /** The agreements with their areas, the recorded actuals, oldest first, and the uploads waiting to be imported. */
  datatype State = State(agreements: map<nat, Agreement>, actuals: seq<Actual>, pending: map<nat, seq<ImportRow>>)

  const EMPTY: State := State(map[], [], map[])

  /** What a request says about a metric and an area; the identifiers are the ones the call draws. */
  datatype MetricRequest = MetricRequest(id: nat, definitionId: Option<nat>, description: string, weight: real,
      target: real)

  datatype AreaRequest = AreaRequest(id: nat, name: string, weight: real, sortOrder: Option<int>,
      metrics: seq<MetricRequest>)

  /**
   `pick` is the row a query without a full order returned: the area to import into, or the active
   agreement and its metric an event counts for.
   */
  datatype Op =
    | CreateAgreement(session: Session, id: nat, engineerId: nat, period: string)
    | UpsertAreas(session: Session, id: nat, areas: seq<AreaRequest>)
    | Submit(session: Session, id: nat)
    | Accept(session: Session, id: nat)
    | Upload(session: Session, id: nat, rows: seq<ImportRow>)
    | Import(session: Session, id: nat, areaId: nat, firstId: nat, pick: nat)
    | CreateActual(session: Session, metricId: nat, value: real)
    | Ingest(tenantId: nat, engineerId: nat, definitionId: Option<nat>, source: Source,
        found: Option<(nat, Option<nat>)>)

  // ---- Metrics of areas ------------------------------------------------------------------

  function IdsOf(metrics: seq<Metric>): set<nat> { set i | 0 <= i < |metrics| :: metrics[i].id }

  function AreaIds(areas: seq<Area>): set<nat> {
    set i, j | 0 <= i < |areas| && 0 <= j < |areas[i].metrics| :: areas[i].metrics[j].id
  }

  predicate HasMetric(s: State, metricId: nat) {
    exists id :: id in s.agreements && metricId in AreaIds(s.agreements[id].areas)
  }

  predicate Referenced(actuals: seq<Actual>, ids: set<nat>) {
    exists i :: 0 <= i < |actuals| && actuals[i].metricId in ids
  }

  function AreaWeight(areas: seq<Area>): real {
    if areas == [] then 0.0 else AreaWeight(areas[..|areas| - 1]) + areas[|areas| - 1].weight
  }

  function RequestWeight(areas: seq<AreaRequest>): real {
    if areas == [] then 0.0 else RequestWeight(areas[..|areas| - 1]) + areas[|areas| - 1].weight
  }

  predicate NearHundred(total: real) { 99.99 <= total <= 100.01 }

  function NewMetric(m: MetricRequest): Metric { Metric(m.id, m.definitionId, m.description, m.weight, m.target, None) }

  function NewMetrics(ms: seq<MetricRequest>): seq<Metric> {
    if ms == [] then [] else NewMetrics(ms[..|ms| - 1]) + [NewMetric(ms[|ms| - 1])]
  }

  function NewAreas(areas: seq<AreaRequest>): seq<Area> {
    if areas == [] then []
    else
      var i, last := |areas| - 1, areas[|areas| - 1];
      NewAreas(areas[..i])
      + [Area(last.id, last.name, last.weight, if last.sortOrder.Some? then last.sortOrder.value else i,
          NewMetrics(last.metrics))]
  }

  predicate Skipped(row: ImportRow) { AllWhite(row.description) || row.target <= 0.0 }

  /** The rows that are not skipped; row `i` draws the identifier `firstId + i`. */
  function ImportedMetrics(rows: seq<ImportRow>, firstId: nat): seq<Metric> {
    if rows == [] then []
    else
      var i, last := |rows| - 1, rows[|rows| - 1];
      ImportedMetrics(rows[..i], firstId)
      + if Skipped(last) then [] else [Metric(firstId + i, None, last.description, last.weight, last.target, None)]
  }

  function ImportInto(areas: seq<Area>, areaId: nat, pick: nat, metrics: seq<Metric>): seq<Area> {
    if areas == [] then [Area(areaId, "Imported Metrics", 100.0, 0, metrics)]
    else if pick < |areas| then areas[pick := areas[pick].(metrics := areas[pick].metrics + metrics)]
    else areas
  }

  // ---- Actuals ------------------------------------------------------------------------------

  function SumFor(actuals: seq<Actual>, metricId: nat): real {
    if actuals == [] then 0.0
    else
      SumFor(actuals[..|actuals| - 1], metricId)
      + if actuals[|actuals| - 1].metricId == metricId then actuals[|actuals| - 1].value else 0.0
  }

  function Scored(m: Metric, metricId: nat, total: real): Metric {
    if m.id == metricId then m.(actualScore := Some(total)) else m
  }

  function ScoredMetrics(ms: seq<Metric>, metricId: nat, total: real): seq<Metric> {
    seq(|ms|, i requires 0 <= i < |ms| => Scored(ms[i], metricId, total))
  }

  function ScoredAreas(areas: seq<Area>, metricId: nat, total: real): seq<Area> {
    seq(|areas|, i requires 0 <= i < |areas| => areas[i].(metrics := ScoredMetrics(areas[i].metrics, metricId, total)))
  }

  /** Every row of the metric gets the total. */
  function ScoredAll(agreements: map<nat, Agreement>, metricId: nat, total: real): map<nat, Agreement> {
    map id | id in agreements :: agreements[id].(areas := ScoredAreas(agreements[id].areas, metricId, total))
  }

  // ---- What a call does ----------------------------------------------------------------------

  /** Why a caller does not get at an agreement, if so. */
  function AccessError(s: State, session: Session, id: nat): Option<Error> {
    if id !in s.agreements || s.agreements[id].tenantId != session.tenantId then Some(NotFound)
    else if session.role == Engineer && s.agreements[id].engineerId != session.userId then Some(Forbidden)
    else None
  }

  predicate Taken(s: State, tenantId: nat, engineerId: nat, period: string) {
    exists id :: id in s.agreements && s.agreements[id].tenantId == tenantId
        && s.agreements[id].engineerId == engineerId
                 && s.agreements[id].period == period
  }

  function WithAreas(s: State, id: nat, areas: seq<Area>): State
    requires id in s.agreements
  {
    s.(agreements := s.agreements[id := s.agreements[id].(areas := areas)])
  }

  function WithStatus(s: State, id: nat, status: Status): State
    requires id in s.agreements
  {
    s.(agreements := s.agreements[id := s.agreements[id].(status := status)])
  }

  function ApplyUpsert(s: State, session: Session, id: nat, areas: seq<AreaRequest>): (State, Result<()>) {
    var denied := AccessError(s, session, id);
    if denied.Some? then (s, Err(denied.value))
    else if s.agreements[id].status != Draft then (s, Err(BadRequest))
    else if !NearHundred(RequestWeight(areas)) then (s, Err(BadRequest))
    else if Referenced(s.actuals, AreaIds(s.agreements[id].areas)) then (s, Err(ConstraintViolated))
    else (WithAreas(s, id, NewAreas(areas)), Ok(()))
  }

  function ApplyImport(s: State, session: Session, id: nat, areaId: nat, firstId: nat, pick: nat): (State, Result<()>) {
    var denied := AccessError(s, session, id);
    if denied.Some? then (s, Err(denied.value))
    else if s.agreements[id].status != Draft then (s, Err(BadRequest))
    else if id !in s.pending || s.pending[id] == [] then (s, Err(BadRequest))
    else
      (WithAreas(s, id, ImportInto(s.agreements[id].areas, areaId, pick, ImportedMetrics(s.pending[id], firstId)))
         .(pending := s.pending - {id}), Ok(()))
  }

  function ApplyIngest(s: State, metricId: nat, source: Source): State {
    var actuals := s.actuals + [Actual(metricId, 1.0, source)];
    s.(actuals := actuals, agreements := ScoredAll(s.agreements, metricId, SumFor(actuals, metricId)))
  }

  /** The state and answer of one call. */
  function Apply(s: State, op: Op): (State, Result<()>) {
    match op
    case CreateAgreement(session, id, engineerId, period) =>
      if !IsLead(session.role) then (s, Err(Forbidden))
      else if Taken(s, session.tenantId, engineerId, period) then (s, Err(BadRequest))
      else (s.(agreements := s.agreements[id := Agreement(session.tenantId, engineerId, session.userId, period, Draft,
          [])]), Ok(()))
    case UpsertAreas(session, id, areas) => ApplyUpsert(s, session, id, areas)
    case Submit(session, id) =>
      if !IsLead(session.role) then (s, Err(Forbidden))
      else
        var denied := AccessError(s, session, id);
        if denied.Some? then (s, Err(denied.value))
        else if s.agreements[id].status != Draft then (s, Err(BadRequest))
        else (WithStatus(s, id, PendingReview), Ok(()))
    case Accept(session, id) =>
      var denied := AccessError(s, session, id);
      if denied.Some? then (s, Err(denied.value))
      else if s.agreements[id].status != PendingReview then (s, Err(BadRequest))
      else if s.agreements[id].engineerId != session.userId then (s, Err(Forbidden))
      else (WithStatus(s, id, Active), Ok(()))
    case Upload(session, id, rows) =>
      var denied := AccessError(s, session, id);
      if denied.Some? then (s, Err(denied.value)) else (s.(pending := s.pending[id := rows]), Ok(()))
    case Import(session, id, areaId, firstId, pick) => ApplyImport(s, session, id, areaId, firstId, pick)
    case CreateActual(_, metricId, value) =>
      if !HasMetric(s, metricId) then (s, Err(ConstraintViolated))
      else (s.(actuals := s.actuals + [Actual(metricId, value, Manual)]), Ok(()))
    case Ingest(_, _, definitionId, source, found) =>
      if definitionId.None? || found.None? || found.value.1.None? then (s, Ok(()))
      else (ApplyIngest(s, found.value.1.value, source), Ok(()))
  }

  // ---- Which calls can happen -----------------------------------------------------------------

  predicate ActiveFor(s: State, tenantId: nat, engineerId: nat, id: nat) {
    id in s.agreements && s.agreements[id].tenantId == tenantId && s.agreements[id].engineerId == engineerId
    && s.agreements[id].status == Active
  }

  predicate Measures(areas: seq<Area>, definitionId: nat, metricId: nat) {
    exists i, j :: 0 <= i < |areas| && 0 <= j < |areas[i].metrics|
                   && areas[i].metrics[j].id == metricId && areas[i].metrics[j].definitionId == Some(definitionId)
  }

  predicate MeasuresNone(areas: seq<Area>, definitionId: nat) {
    forall i, j :: 0 <= i < |areas| && 0 <= j < |areas[i].metrics|
        ==> areas[i].metrics[j].definitionId != Some(definitionId)
  }

  /** An answer the two lookups may give: any active agreement, then any of its metrics for the definition. */
  predicate Found(s: State, tenantId: nat, engineerId: nat, definitionId: nat, found: Option<(nat, Option<nat>)>) {
    match found
    case None => forall id :: id in s.agreements ==> !ActiveFor(s, tenantId, engineerId, id)
    case Some((id, metric)) =>
      && ActiveFor(s, tenantId, engineerId, id)
      && match metric
         case None => MeasuresNone(s.agreements[id].areas, definitionId)
         case Some(metricId) => Measures(s.agreements[id].areas, definitionId, metricId)
  }

  predicate Earliest(areas: seq<Area>, pick: nat) {
    pick < |areas| && forall i :: 0 <= i < |areas| ==> areas[pick].sortOrder <= areas[i].sortOrder
  }

  predicate Unused(s: State, ids: set<nat>) { forall id :: id in ids ==> !HasMetric(s, id) }

  /** Identifiers are drawn unused, and lookups return rows that are there. */
  predicate Enabled(s: State, op: Op) {
    match op
    case CreateAgreement(_, id, _, _) => id !in s.agreements
    case UpsertAreas(_, _, areas) => Unused(s, AreaIds(NewAreas(areas)))
    case Import(_, id, _, firstId, pick) =>
      && (id in s.pending ==> Unused(s, IdsOf(ImportedMetrics(s.pending[id], firstId))))
      && (id in s.agreements && s.agreements[id].areas != [] ==> Earliest(s.agreements[id].areas, pick))
    case Ingest(tenantId, engineerId, definitionId, source, found) =>
      && source != Manual
      && (definitionId.Some? ==> Found(s, tenantId, engineerId, definitionId.value, found))
    case _ => true
  }

  function Step(s: State, op: Op): State { if Enabled(s, op) then Apply(s, op).0 else s }

  function Run(s: State, ops: seq<Op>): State {
    if ops == [] then s else Step(Run(s, ops[..|ops| - 1]), ops[|ops| - 1])
  }

  // ---- The service --------------------------------------------------------------------------------

  class KpiService {
    var agreements: map<nat, Agreement>
    var actuals: seq<Actual>
    var pending: map<nat, seq<ImportRow>>

    constructor ()
      ensures Snapshot() == EMPTY
    {
      agreements, actuals, pending := map[], [], map[];
    }

    function Snapshot(): State
      reads this
    {
      State(agreements, actuals, pending)
    }

    method Create(session: Session, id: nat, engineerId: nat, period: string) returns (r: Result<()>)
      modifies this
      ensures (Snapshot(), r) == Apply(old(Snapshot()), CreateAgreement(session, id, engineerId, period))
    {
      if !IsLead(session.role) { return Err(Forbidden); }
      if Taken(Snapshot(), session.tenantId, engineerId, period) { return Err(BadRequest); }
      agreements := agreements[id := Agreement(session.tenantId, engineerId, session.userId, period, Draft, [])];
      r := Ok(());
    }

    method UpsertAgreementAreas(session: Session, id: nat, areas: seq<AreaRequest>) returns (r: Result<()>)
      modifies this
      ensures (Snapshot(), r) == Apply(old(Snapshot()), Op.UpsertAreas(session, id, areas))
    {
      var denied := AccessError(Snapshot(), session, id);
      if denied.Some? { return Err(denied.value); }
      var agreement := agreements[id];
      if agreement.status != Draft { return Err(BadRequest); }
      var difference := RequestWeight(areas) - 100.0;
      if (if difference < 0.0 then -difference else difference) > 0.01 { return Err(BadRequest); }
      if Referenced(actuals, AreaIds(agreement.areas)) { return Err(ConstraintViolated); }

      agreements := agreements[id := agreement.(areas := [])];
      CreateAreas(id, areas);
      assert agreements == old(agreements)[id := agreement.(areas := NewAreas(areas))];
      r := Ok(());
    }

    /** The rows of a request, one area after the other, into an agreement without areas. */
    method CreateAreas(id: nat, areas: seq<AreaRequest>)
      requires id in agreements && agreements[id].areas == []
      modifies this`agreements
      ensures agreements == old(agreements)[id := old(agreements)[id].(areas := NewAreas(areas))]
    {
      ghost var agreement := agreements[id];
      var i := 0;
      while i < |areas|
        invariant 0 <= i <= |areas|
        invariant agreements == old(agreements)[id := agreement.(areas := NewAreas(areas[..i]))]
      {
        var request := areas[i];
        var metrics := CreateMetrics(request.metrics);
        assert areas[..i + 1][..i] == areas[..i];
        var sortOrder := if request.sortOrder.Some? then request.sortOrder.value else i;
        var area := Area(request.id, request.name, request.weight, sortOrder, metrics);
        agreements := agreements[id := agreements[id].(areas := agreements[id].areas + [area])];
        i := i + 1;
      }
      assert areas[..|areas|] == areas;
    }

    method SubmitAgreement(session: Session, id: nat) returns (r: Result<()>)
      modifies this
      ensures (Snapshot(), r) == Apply(old(Snapshot()), Op.Submit(session, id))
    {
      if !IsLead(session.role) { return Err(Forbidden); }
      var denied := AccessError(Snapshot(), session, id);
      if denied.Some? { return Err(denied.value); }
      if agreements[id].status != Draft { return Err(BadRequest); }
      agreements := agreements[id := agreements[id].(status := PendingReview)];
      r := Ok(());
    }

    method AcceptAgreement(session: Session, id: nat) returns (r: Result<()>)
      modifies this
      ensures (Snapshot(), r) == Apply(old(Snapshot()), Op.Accept(session, id))
    {
      var denied := AccessError(Snapshot(), session, id);
      if denied.Some? { return Err(denied.value); }
      if agreements[id].status != PendingReview { return Err(BadRequest); }
      if agreements[id].engineerId != session.userId { return Err(Forbidden); }
      agreements := agreements[id := agreements[id].(status := Active)];
      r := Ok(());
    }

    method UploadRows(session: Session, id: nat, rows: seq<ImportRow>) returns (r: Result<()>)
      modifies this
      ensures (Snapshot(), r) == Apply(old(Snapshot()), Op.Upload(session, id, rows))
    {
      var denied := AccessError(Snapshot(), session, id);
      if denied.Some? { return Err(denied.value); }
      pending := pending[id := rows];
      r := Ok(());
    }

    method ImportWithMapping(session: Session, id: nat, areaId: nat, firstId: nat, pick: nat) returns (r: Result<nat>)
      requires Enabled(Snapshot(), Op.Import(session, id, areaId, firstId, pick))
      modifies this
      ensures Snapshot() == ApplyImport(old(Snapshot()), session, id, areaId, firstId, pick).0
      ensures (if r.Ok? then Ok(()) else Err(r.error)) == ApplyImport(old(Snapshot()), session, id, areaId, firstId,
              pick).1
      ensures r.Ok? ==> id in old(pending) && r.value == |ImportedMetrics(old(pending)[id], firstId)|
    {
      var denied := AccessError(Snapshot(), session, id);
      if denied.Some? { return Err(denied.value); }
      var agreement := agreements[id];
      if agreement.status != Draft { return Err(BadRequest); }
      if id !in pending || pending[id] == [] { return Err(BadRequest); }
      var rows := pending[id];

      var areas := agreement.areas;
      var target := pick;
      if areas == [] {
        areas, target := [Area(areaId, "Imported Metrics", 100.0, 0, [])], 0;
      }
      var metrics := MapRows(rows, firstId);
      areas := areas[target := areas[target].(metrics := areas[target].metrics + metrics)];
      assert [] + metrics == metrics;
      assert areas == ImportInto(agreement.areas, areaId, pick, metrics);
      agreements := agreements[id := agreement.(areas := areas)];
      pending := pending - {id};
      r := Ok(|metrics|);
    }

    method RecordManually(session: Session, metricId: nat, value: real) returns (r: Result<()>)
      modifies this
      ensures (Snapshot(), r) == Apply(old(Snapshot()), Op.CreateActual(session, metricId, value))
    {
      if !HasMetric(Snapshot(), metricId) { return Err(ConstraintViolated); }
      actuals := actuals + [Actual(metricId, value, Manual)];
      r := Ok(());
    }

    method IngestEvent(tenantId: nat, engineerId: nat, definitionId: Option<nat>, source: Source,
            found: Option<(nat, Option<nat>)>)
      requires Enabled(Snapshot(), Op.Ingest(tenantId, engineerId, definitionId, source, found))
      modifies this
      ensures Snapshot() == Apply(old(Snapshot()), Op.Ingest(tenantId, engineerId, definitionId, source, found)).0
    {
      if definitionId.None? || found.None? || found.value.1.None? { return; }
      var metricId := found.value.1.value;
      actuals := actuals + [Actual(metricId, 1.0, source)];
      var total := SumActuals(metricId);
      agreements := ScoredAll(agreements, metricId, total);
    }

    method SumActuals(metricId: nat) returns (total: real)
      ensures total == SumFor(actuals, metricId)
    {
      total := 0.0;
      var i := 0;
      while i < |actuals|
        invariant 0 <= i <= |actuals|
        invariant total == SumFor(actuals[..i], metricId)
      {
        assert actuals[..i + 1][..i] == actuals[..i];
        if actuals[i].metricId == metricId { total := total + actuals[i].value; }
        i := i + 1;
      }
      assert actuals[..|actuals|] == actuals;
    }
  }

  method CreateMetrics(requests: seq<MetricRequest>) returns (metrics: seq<Metric>)
    ensures metrics == NewMetrics(requests)
  {
    metrics := [];
    var j := 0;
    while j < |requests|
      invariant 0 <= j <= |requests|
      invariant metrics == NewMetrics(requests[..j])
    {
      assert requests[..j + 1][..j] == requests[..j];
      metrics := metrics + [NewMetric(requests[j])];
      j := j + 1;
    }
    assert requests[..|requests|] == requests;
  }

  method MapRows(rows: seq<ImportRow>, firstId: nat) returns (metrics: seq<Metric>)
    ensures metrics == ImportedMetrics(rows, firstId)
  {
    metrics := [];
    var i := 0;
    while i < |rows|
      invariant 0 <= i <= |rows|
      invariant metrics == ImportedMetrics(rows[..i], firstId)
    {
      assert rows[..i + 1][..i] == rows[..i];
      var row := rows[i];
      i := i + 1;
      if AllWhite(row.description) || row.target <= 0.0 { continue; }
      metrics := metrics + [Metric(firstId + i - 1, None, row.description, row.weight, row.target, None)];
    }
    assert rows[..|rows|] == rows;
  }

  // ---- What every run keeps -----------------------------------------------------------------------

  /** The sum of a metric's actuals up to its last ingested one, if any. */
  function LastIngested(actuals: seq<Actual>, metricId: nat): Option<real> {
    if actuals == [] then None
    else
      var last := actuals[|actuals| - 1];
      if last.metricId == metricId && last.source != Manual then Some(SumFor(actuals, metricId))
      else LastIngested(actuals[..|actuals| - 1], metricId)
  }

  /** What was recorded by hand for a metric since its last ingestion. */
  function ManualSince(actuals: seq<Actual>, metricId: nat): real {
    if actuals == [] then 0.0
    else
      var last := actuals[|actuals| - 1];
      if last.metricId != metricId then ManualSince(actuals[..|actuals| - 1], metricId)
      else if last.source != Manual then 0.0
      else ManualSince(actuals[..|actuals| - 1], metricId) + last.value
  }

  predicate Cached(areas: seq<Area>, actuals: seq<Actual>) {
    forall i, j :: 0 <= i < |areas| && 0 <= j < |areas[i].metrics| ==>
      areas[i].metrics[j].actualScore == LastIngested(actuals, areas[i].metrics[j].id)
  }

  predicate Balanced(areas: seq<Area>) { areas == [] || NearHundred(AreaWeight(areas)) }

  predicate Known(s: State) { forall i :: 0 <= i < |s.actuals| ==> HasMetric(s, s.actuals[i].metricId) }

  predicate OnePerPeriod(s: State) {
    forall a, b :: a in s.agreements && b in s.agreements && s.agreements[a].tenantId == s.agreements[b].tenantId
                   && s.agreements[a].engineerId == s.agreements[b].engineerId
                       && s.agreements[a].period == s.agreements[b].period
                   ==> a == b
  }

  predicate Inv(s: State) {
    && Known(s) && OnePerPeriod(s)
    && forall id :: id in s.agreements ==> Balanced(s.agreements[id].areas) && Cached(s.agreements[id].areas, s.actuals)
  }

  lemma {:induction false} NeverIngested(actuals: seq<Actual>, metricId: nat)
    requires forall i :: 0 <= i < |actuals| ==> actuals[i].metricId != metricId
    ensures LastIngested(actuals, metricId) == None
  {
    if actuals != [] { NeverIngested(actuals[..|actuals| - 1], metricId); }
  }

  lemma IngestedAppend(actuals: seq<Actual>, x: Actual, metricId: nat)
    ensures LastIngested(actuals + [x], metricId)
            == if x.metricId == metricId && x.source != Manual then Some(SumFor(actuals + [x], metricId))
               else LastIngested(actuals, metricId)
  {
    assert (actuals + [x])[..|actuals + [x]| - 1] == actuals;
  }

  /** An unused identifier has no actuals. */
  lemma UnusedIsFresh(s: State, metricId: nat)
    requires Known(s) && !HasMetric(s, metricId)
    ensures LastIngested(s.actuals, metricId) == None
  {
    NeverIngested(s.actuals, metricId);
  }

  lemma {:induction false} NewMetricsFresh(ms: seq<MetricRequest>)
    ensures forall i :: 0 <= i < |NewMetrics(ms)| ==> NewMetrics(ms)[i].actualScore == None
  {
    if ms != [] { NewMetricsFresh(ms[..|ms| - 1]); }
  }

  lemma {:induction false} NewAreasFresh(areas: seq<AreaRequest>)
    ensures AreaWeight(NewAreas(areas)) == RequestWeight(areas)
    ensures forall i, j :: 0 <= i < |NewAreas(areas)| && 0 <= j < |NewAreas(areas)[i].metrics| ==>
              NewAreas(areas)[i].metrics[j].actualScore == None
  {
    if areas != [] {
      var init := areas[..|areas| - 1];
      NewAreasFresh(init);
      NewMetricsFresh(areas[|areas| - 1].metrics);
      var created := NewAreas(areas);
      assert created[..|created| - 1] == NewAreas(init);
    }
  }

  lemma {:induction false} ImportedFresh(rows: seq<ImportRow>, firstId: nat)
    ensures forall i :: 0 <= i < |ImportedMetrics(rows, firstId)| ==>
              ImportedMetrics(rows, firstId)[i].actualScore == None
  {
    if rows != [] { ImportedFresh(rows[..|rows| - 1], firstId); }
  }

  lemma {:induction false} WeightAt(areas: seq<Area>, pick: nat, area: Area)
    requires pick < |areas| && area.weight == areas[pick].weight
    ensures AreaWeight(areas[pick := area]) == AreaWeight(areas)
  {
    var changed := areas[pick := area];
    if pick < |areas| - 1 {
      assert changed[..|areas| - 1] == areas[..|areas| - 1][pick := area];
      WeightAt(areas[..|areas| - 1], pick, area);
    } else {
      assert changed[..|areas| - 1] == areas[..|areas| - 1];
    }
  }

  lemma {:induction false} ScoringKeepsWeight(areas: seq<Area>, metricId: nat, total: real)
    ensures AreaWeight(ScoredAreas(areas, metricId, total)) == AreaWeight(areas)
  {
    var scored := ScoredAreas(areas, metricId, total);
    if areas != [] {
      assert scored[..|scored| - 1] == ScoredAreas(areas[..|areas| - 1], metricId, total);
      ScoringKeepsWeight(areas[..|areas| - 1], metricId, total);
    }
  }

  /** Setting a score changes no identifier. */
  lemma ScoringKeepsIds(areas: seq<Area>, metricId: nat, total: real)
    ensures AreaIds(ScoredAreas(areas, metricId, total)) == AreaIds(areas)
  {
    var scored := ScoredAreas(areas, metricId, total);
    forall x
      ensures x in AreaIds(scored) <==> x in AreaIds(areas)
    {
      if x in AreaIds(areas) {
        var i, j :| 0 <= i < |areas| && 0 <= j < |areas[i].metrics| && areas[i].metrics[j].id == x;
        assert scored[i].metrics[j].id == x;
      }
      if x in AreaIds(scored) {
        var i, j :| 0 <= i < |scored| && 0 <= j < |scored[i].metrics| && scored[i].metrics[j].id == x;
        assert areas[i].metrics[j].id == x;
      }
    }
  }

  /**
   One recorded actual leaves every cache right: the metric it was ingested for is refreshed, the others do not see
   it.
   */
  lemma CacheAfterActual(areas: seq<Area>, actuals: seq<Actual>, x: Actual)
    requires Cached(areas, actuals)
    ensures x.source == Manual ==> Cached(areas, actuals + [x])
    ensures x.source != Manual ==> Cached(ScoredAreas(areas, x.metricId, SumFor(actuals + [x], x.metricId)), actuals
            + [x])
  {
    forall i, j | 0 <= i < |areas| && 0 <= j < |areas[i].metrics|
      ensures var m := areas[i].metrics[j];
              LastIngested(actuals + [x], m.id)
              == if x.metricId == m.id && x.source != Manual then Some(SumFor(actuals + [x], m.id)) else m.actualScore
    {
      IngestedAppend(actuals, x, areas[i].metrics[j].id);
    }
  }

  /**
   Replacing the areas of an agreement keeps the invariant if the new ones are balanced, cached and still hold what
   is referenced.
   */
  lemma WithAreasInv(s: State, id: nat, areas: seq<Area>)
    requires Inv(s) && id in s.agreements && Balanced(areas) && Cached(areas, s.actuals)
    requires forall i :: 0 <= i < |s.actuals| && s.actuals[i].metricId in AreaIds(s.agreements[id].areas)
              ==> s.actuals[i].metricId in AreaIds(areas)
    ensures Inv(WithAreas(s, id, areas))
  {
    var s' := WithAreas(s, id, areas);
    forall i | 0 <= i < |s'.actuals|
      ensures HasMetric(s', s'.actuals[i].metricId)
    {
      var m := s.actuals[i].metricId;
      assert HasMetric(s, m);
      var a :| a in s.agreements && m in AreaIds(s.agreements[a].areas);
      assert a in s'.agreements && m in AreaIds(s'.agreements[a].areas);
    }
  }

  lemma UpsertInv(s: State, session: Session, id: nat, areas: seq<AreaRequest>)
    requires Inv(s) && Unused(s, AreaIds(NewAreas(areas)))
    ensures Inv(ApplyUpsert(s, session, id, areas).0)
  {
    if ApplyUpsert(s, session, id, areas).1.Ok? {
      var created := NewAreas(areas);
      NewAreasFresh(areas);
      forall i, j | 0 <= i < |created| && 0 <= j < |created[i].metrics|
        ensures created[i].metrics[j].actualScore == LastIngested(s.actuals, created[i].metrics[j].id)
      {
        assert created[i].metrics[j].id in AreaIds(created);
        UnusedIsFresh(s, created[i].metrics[j].id);
      }
      WithAreasInv(s, id, created);
    }
  }

  lemma ImportedAreas(s: State, areas: seq<Area>, areaId: nat, pick: nat, metrics: seq<Metric>)
    requires Known(s) && Balanced(areas) && Cached(areas, s.actuals) && Unused(s, IdsOf(metrics))
    requires forall i :: 0 <= i < |metrics| ==> metrics[i].actualScore == None
    ensures var areas' := ImportInto(areas, areaId, pick, metrics);
            Balanced(areas') && Cached(areas', s.actuals) && AreaIds(areas) <= AreaIds(areas')
  {
    forall i | 0 <= i < |metrics|
      ensures metrics[i].actualScore == LastIngested(s.actuals, metrics[i].id)
    {
      assert metrics[i].id in IdsOf(metrics);
      UnusedIsFresh(s, metrics[i].id);
    }
    var areas' := ImportInto(areas, areaId, pick, metrics);
    if areas == [] {
      assert areas'[..0] == [];
    } else if pick < |areas| {
      WeightAt(areas, pick, areas'[pick]);
      forall x | x in AreaIds(areas)
        ensures x in AreaIds(areas')
      {
        var i, j :| 0 <= i < |areas| && 0 <= j < |areas[i].metrics| && areas[i].metrics[j].id == x;
        assert areas'[i].metrics[j].id == x;
      }
    }
  }

  lemma ImportInv(s: State, session: Session, id: nat, areaId: nat, firstId: nat, pick: nat)
    requires Inv(s) && (id in s.pending ==> Unused(s, IdsOf(ImportedMetrics(s.pending[id], firstId))))
    ensures Inv(ApplyImport(s, session, id, areaId, firstId, pick).0)
  {
    if ApplyImport(s, session, id, areaId, firstId, pick).1.Ok? {
      var metrics := ImportedMetrics(s.pending[id], firstId);
      var areas := s.agreements[id].areas;
      ImportedFresh(s.pending[id], firstId);
      ImportedAreas(s, areas, areaId, pick, metrics);
      WithAreasInv(s, id, ImportInto(areas, areaId, pick, metrics));
      PendingIsApart(WithAreas(s, id, ImportInto(areas, areaId, pick, metrics)), s.pending - {id});
    }
  }

  lemma KnownStays(s: State, s': State)
    requires Known(s) && s'.actuals == s.actuals
    requires forall id :: id in s.agreements ==>
               id in s'.agreements && s'.agreements[id].areas == s.agreements[id].areas
    ensures Known(s')
  {
    forall i | 0 <= i < |s'.actuals|
      ensures HasMetric(s', s'.actuals[i].metricId)
    {
      assert HasMetric(s, s.actuals[i].metricId);
      var a :| a in s.agreements && s.actuals[i].metricId in AreaIds(s.agreements[a].areas);
      assert a in s'.agreements;
    }
  }

  lemma PendingIsApart(s: State, pending: map<nat, seq<ImportRow>>)
    requires Inv(s)
    ensures Inv(s.(pending := pending))
  {
    var s' := s.(pending := pending);
    KnownStays(s, s');
  }

  lemma StatusInv(s: State, id: nat, status: Status)
    requires Inv(s) && id in s.agreements
    ensures Inv(WithStatus(s, id, status))
  {
    var s' := WithStatus(s, id, status);
    KnownStays(s, s');
  }

  lemma CreateInv(s: State, id: nat, agreement: Agreement)
    requires Inv(s) && id !in s.agreements && agreement.areas == []
    requires !Taken(s, agreement.tenantId, agreement.engineerId, agreement.period)
    ensures Inv(s.(agreements := s.agreements[id := agreement]))
  {
    var s' := s.(agreements := s.agreements[id := agreement]);
    KnownStays(s, s');
  }

  /** The state after one more actual, with the metric's rows refreshed if it was ingested. */
  function Recorded(s: State, x: Actual): State {
    var actuals := s.actuals + [x];
    State(if x.source == Manual then s.agreements else ScoredAll(s.agreements, x.metricId,
        SumFor(actuals, x.metricId)), actuals, s.pending)
  }

  lemma RecordedInv(s: State, x: Actual)
    requires Inv(s) && HasMetric(s, x.metricId)
    ensures Inv(Recorded(s, x))
  {
    var s' := Recorded(s, x);
    var total := SumFor(s.actuals + [x], x.metricId);
    forall id | id in s.agreements
      ensures id in s'.agreements && AreaIds(s'.agreements[id].areas) == AreaIds(s.agreements[id].areas)
      ensures Balanced(s'.agreements[id].areas) && Cached(s'.agreements[id].areas, s'.actuals)
      ensures s'.agreements[id] == s.agreements[id].(areas := s'.agreements[id].areas)
    {
      var areas := s.agreements[id].areas;
      CacheAfterActual(areas, s.actuals, x);
      ScoringKeepsWeight(areas, x.metricId, total);
      ScoringKeepsIds(areas, x.metricId, total);
    }
    forall i | 0 <= i < |s'.actuals|
      ensures HasMetric(s', s'.actuals[i].metricId)
    {
      var m := s'.actuals[i].metricId;
      assert HasMetric(s, m);
      var a :| a in s.agreements && m in AreaIds(s.agreements[a].areas);
      assert a in s'.agreements && m in AreaIds(s'.agreements[a].areas);
    }
  }

  lemma FoundIsThere(s: State, op: Op)
    requires op.Ingest? && Enabled(s, op) && op.definitionId.Some? && op.found.Some? && op.found.value.1.Some?
    ensures HasMetric(s, op.found.value.1.value)
  {
    var areas, m := s.agreements[op.found.value.0].areas, op.found.value.1.value;
    var i, j :| 0 <= i < |areas| && 0 <= j < |areas[i].metrics| && areas[i].metrics[j].id == m;
    assert m in AreaIds(areas);
  }

  lemma StepInv(s: State, op: Op)
    requires Inv(s)
    ensures Inv(Step(s, op))
  {
    if Enabled(s, op) && Apply(s, op).0 != s {
      match op
      case CreateAgreement(session, id, engineerId, period) =>
        CreateInv(s, id, Agreement(session.tenantId, engineerId, session.userId, period, Draft, []));
      case UpsertAreas(session, id, areas) => UpsertInv(s, session, id, areas);
      case Submit(_, id) => StatusInv(s, id, PendingReview);
      case Accept(_, id) => StatusInv(s, id, Active);
      case Upload(_, id, rows) => PendingIsApart(s, s.pending[id := rows]);
      case Import(session, id, areaId, firstId, pick) => ImportInv(s, session, id, areaId, firstId, pick);
      case CreateActual(_, metricId, value) => RecordedInv(s, Actual(metricId, value, Manual));
      case Ingest(_, _, _, source, found) =>
        FoundIsThere(s, op);
        RecordedInv(s, Actual(found.value.1.value, 1.0, source));
    }
  }

  /**
   In every state a run can reach, each agreement has no areas or area weights within 0.01 of 100, an
   engineer has one agreement a period, and each cached score is the sum up to the last ingestion.
   */
  lemma {:induction false} RunInv(ops: seq<Op>)
    ensures Inv(Run(EMPTY, ops))
  {
    if ops != [] {
      RunInv(ops[..|ops| - 1]);
      StepInv(Run(EMPTY, ops[..|ops| - 1]), ops[|ops| - 1]);
    }
  }

  // ---- The cache and its lag -----------------------------------------------------------------------

  /** A refreshed metric shows the sum of all its actuals; later it lags by exactly what was recorded by hand since. */
  lemma {:induction false} CacheLag(actuals: seq<Actual>, metricId: nat)
    ensures LastIngested(actuals, metricId).Some? ==>
              SumFor(actuals, metricId) == LastIngested(actuals, metricId).value + ManualSince(actuals, metricId)
    ensures LastIngested(actuals, metricId).None? ==> SumFor(actuals, metricId) == ManualSince(actuals, metricId)
  {
    if actuals != [] { CacheLag(actuals[..|actuals| - 1], metricId); }
  }

  /** The score that is stored for a metric, wherever its row is. */
  predicate Shows(s: State, metricId: nat, score: Option<real>) {
    forall id :: id in s.agreements ==> AreasShow(s.agreements[id].areas, metricId, score)
  }

  predicate AreasShow(areas: seq<Area>, metricId: nat, score: Option<real>) {
    forall i, j :: 0 <= i < |areas| && 0 <= j < |areas[i].metrics| && areas[i].metrics[j].id == metricId ==>
      areas[i].metrics[j].actualScore == score
  }

  /** In every run, right after an event was counted for a metric, its stored score is the sum of all its actuals. */
  lemma IngestionRefreshes(ops: seq<Op>, op: Op)
    requires op.Ingest? && Enabled(Run(EMPTY, ops), op)
    requires op.definitionId.Some? && op.found.Some? && op.found.value.1.Some?
    ensures var s, m := Step(Run(EMPTY, ops), op), op.found.value.1.value;
            && s.actuals == Run(EMPTY, ops).actuals + [Actual(m, 1.0, op.source)]
            && HasMetric(s, m) && Shows(s, m, Some(SumFor(s.actuals, m))) && ManualSince(s.actuals, m) == 0.0
  {
    var before, m := Run(EMPTY, ops), op.found.value.1.value;
    var s := Step(before, op);
    RunInv(ops);
    StepInv(before, op);
    FoundIsThere(before, op);
    RefreshShows(s, before.actuals, Actual(m, 1.0, op.source));
    assert s.actuals[|s.actuals| - 1].metricId == m;
  }

  lemma RefreshShows(s: State, actuals: seq<Actual>, x: Actual)
    requires Inv(s) && s.actuals == actuals + [x] && x.source != Manual
    ensures Shows(s, x.metricId, Some(SumFor(s.actuals, x.metricId)))
  {
    IngestedAppend(actuals, x, x.metricId);
  }

  /** In every reachable state, a stored score and the true sum differ by the manual actuals since the last event. */
  lemma StoredScoreLags(ops: seq<Op>, id: nat, i: nat, j: nat)
    requires var s := Run(EMPTY, ops);
             id in s.agreements && i < |s.agreements[id].areas| && j < |s.agreements[id].areas[i].metrics|
    ensures var s := Run(EMPTY, ops);
            var m := s.agreements[id].areas[i].metrics[j];
            SumFor(s.actuals, m.id) == (if m.actualScore.Some? then m.actualScore.value else 0.0)
                + ManualSince(s.actuals, m.id)
  {
    RunInv(ops);
    var s := Run(EMPTY, ops);
    assert Cached(s.agreements[id].areas, s.actuals);
    CacheLag(s.actuals, s.agreements[id].areas[i].metrics[j].id);
  }

  // ---- Submitted agreements are frozen ----------------------------------------------------------------

  /** The same metric but for its score. */
  predicate SameTerms(a: Metric, b: Metric) { b == a.(actualScore := b.actualScore) }

  predicate SameAreas(a: seq<Area>, b: seq<Area>) {
    && |a| == |b|
    && forall i :: 0 <= i < |a| ==>
         && b[i] == a[i].(metrics := b[i].metrics) && |a[i].metrics| == |b[i].metrics|
         && forall j :: 0 <= j < |a[i].metrics| ==> SameTerms(a[i].metrics[j], b[i].metrics[j])
  }

  function Rank(status: Status): nat { match status case Draft => 0 case PendingReview => 1 case Active => 2 }

  /** The same agreement but for scores and a status that only advances; free to change while it is a draft. */
  predicate Evolves(a: Agreement, b: Agreement) {
    && b.tenantId == a.tenantId && b.engineerId == a.engineerId && b.leadId == a.leadId && b.period == a.period
    && Rank(a.status) <= Rank(b.status)
    && (a.status != Draft ==> SameAreas(a.areas, b.areas))
  }

  lemma EvolvesTransitive(a: Agreement, b: Agreement, c: Agreement)
    requires Evolves(a, b) && Evolves(b, c)
    ensures Evolves(a, c)
  {
    if a.status != Draft {
      forall i, j | 0 <= i < |a.areas| && 0 <= j < |a.areas[i].metrics|
        ensures SameTerms(a.areas[i].metrics[j], c.areas[i].metrics[j])
      {
        assert SameTerms(a.areas[i].metrics[j], b.areas[i].metrics[j])
            && SameTerms(b.areas[i].metrics[j], c.areas[i].metrics[j]);
      }
    }
  }

  lemma IngestEvolves(s: State, id: nat, metricId: nat, source: Source)
    requires id in s.agreements
    ensures id in ApplyIngest(s, metricId, source).agreements
    ensures Evolves(s.agreements[id], ApplyIngest(s, metricId, source).agreements[id])
  {
  }

  lemma StepEvolves(s: State, op: Op, id: nat)
    requires id in s.agreements
    ensures id in Step(s, op).agreements && Evolves(s.agreements[id], Step(s, op).agreements[id])
  {
    if op.Ingest? {
      if op.found.Some? && op.found.value.1.Some? { IngestEvolves(s, id, op.found.value.1.value, op.source); }
    } else if op.UpsertAreas? || op.Import? {
      assert s.agreements[id].status != Draft ==> Step(s, op).agreements[id] == s.agreements[id];
    }
  }

  /** Over any run, from any state: once an agreement has left DRAFT, only the scores of its metrics ever change. */
  lemma {:induction false} FrozenOnceSubmitted(s: State, ops: seq<Op>, id: nat)
    requires id in s.agreements
    ensures id in Run(s, ops).agreements && Evolves(s.agreements[id], Run(s, ops).agreements[id])
  {
    if ops != [] {
      var init := ops[..|ops| - 1];
      FrozenOnceSubmitted(s, init, id);
      StepEvolves(Run(s, init), ops[|ops| - 1], id);
      EvolvesTransitive(s.agreements[id], Run(s, init).agreements[id], Run(s, ops).agreements[id]);
    }
  }

  // ---- What the score of an agreement can be ---------------------------------------------------------

  function ScoringMetrics(ms: seq<Metric>): seq<KpiScoring.Metric> {
    seq(|ms|, i requires 0 <= i < |ms| =>
      KpiScoring.Metric(ms[i].weight, if ms[i].actualScore.Some? then ms[i].actualScore.value else 0.0, ms[i].target))
  }

  function ScoringArea(area: Area): KpiScoring.Area {
    KpiScoring.Area(area.id, area.name, area.weight, ScoringMetrics(area.metrics))
  }

  function ScoringAreas(areas: seq<Area>): (scoring: seq<KpiScoring.Area>)
    ensures |scoring| == |areas|
  {
    if areas == [] then [] else ScoringAreas(areas[..|areas| - 1]) + [ScoringArea(areas[|areas| - 1])]
  }

  lemma {:induction false} ScoringAreaAt(areas: seq<Area>, i: nat)
    requires i < |areas|
    ensures ScoringAreas(areas)[i] == ScoringArea(areas[i])
  {
    if i < |areas| - 1 { ScoringAreaAt(areas[..|areas| - 1], i); }
  }

  lemma {:induction false} ScoringWeight(areas: seq<Area>)
    ensures KpiScoring.AreaWeight(ScoringAreas(areas)) == AreaWeight(areas)
  {
    if areas != [] {
      var init, scoring := areas[..|areas| - 1], ScoringAreas(areas);
      ScoringWeight(init);
      assert scoring[..|scoring| - 1] == ScoringAreas(init);
    }
  }

  predicate NoNegatives(areas: seq<Area>) {
    forall i :: 0 <= i < |areas| ==>
      && areas[i].weight >= 0.0
      && forall j :: 0 <= j < |areas[i].metrics| ==>
           && areas[i].metrics[j].weight >= 0.0
           && (areas[i].metrics[j].actualScore.Some? ==> areas[i].metrics[j].actualScore.value >= 0.0)
  }

  /** Whatever led to it, the overall score computed for an agreement without negative figures lies in [0, 100.01]. */
  lemma ComputedScoreRange(ops: seq<Op>, id: nat)
    requires id in Run(EMPTY, ops).agreements && NoNegatives(Run(EMPTY, ops).agreements[id].areas)
    ensures 0.0 <= KpiScoring.Round2(KpiScoring.Overall(ScoringAreas(Run(EMPTY, ops).agreements[id].areas))) <= 100.01
  {
    RunInv(ops);
    BalancedScoreRange(Run(EMPTY, ops).agreements[id].areas);
  }

  lemma BalancedScoreRange(areas: seq<Area>)
    requires Balanced(areas) && NoNegatives(areas)
    ensures 0.0 <= KpiScoring.Round2(KpiScoring.Overall(ScoringAreas(areas))) <= 100.01
  {
    ScoringWeight(areas);
    forall i | 0 <= i < |areas|
      ensures ScoringAreas(areas)[i].weight >= 0.0 && KpiScoring.Valid(ScoringAreas(areas)[i].metrics)
    {
      ScoringAreaAt(areas, i);
    }
    if areas != [] { KpiScoring.OverallRange(ScoringAreas(areas)); }
  }

  // ---- The weights as the database keeps them -----------------------------------------------------------

  /** The weight column of an area holds two decimals. */
  function StoredAreas(areas: seq<Area>): (stored: seq<Area>)
    ensures |stored| == |areas|
  {
    if areas == [] then []
    else
      var last := areas[|areas| - 1];
      StoredAreas(areas[..|areas| - 1]) + [last.(weight := KpiScoring.Round2(last.weight))]
  }

  function Drift(n: nat): real { 0.005 * n as real }

  /** Storing moves the total by at most half a hundredth an area, to a whole number of hundredths. */
  lemma {:induction false} StoringDrifts(areas: seq<Area>) returns (hundredths: int)
    ensures -Drift(|areas|) <= AreaWeight(StoredAreas(areas)) - AreaWeight(areas) <= Drift(|areas|)
    ensures AreaWeight(StoredAreas(areas)) == KpiScoring.Hundredths(hundredths)
  {
    if areas == [] {
      hundredths := 0;
    } else {
      var init, weight, stored := areas[..|areas| - 1], areas[|areas| - 1].weight, StoredAreas(areas);
      hundredths := StoringDrifts(init);
      assert stored[..|stored| - 1] == StoredAreas(init);
      KpiScoring.RoundIsNear(weight);
      var cents := RoundIsHundredths(weight);
      hundredths := hundredths + cents;
    }
  }

  lemma RoundIsHundredths(x: real) returns (hundredths: int)
    ensures KpiScoring.Round2(x) == KpiScoring.Hundredths(hundredths)
  {
    hundredths := if x >= 0.0 then (x * 100.0 + 0.5).Floor else -(-x * 100.0 + 0.5).Floor;
  }

  /**
   In every reachable state the stored area weights of an agreement total 100 up to the check's 0.01 and
   half a hundredth an area.
   */
  lemma StoredWeightsNearHundred(ops: seq<Op>, id: nat)
    requires id in Run(EMPTY, ops).agreements && Run(EMPTY, ops).agreements[id].areas != []
    ensures var areas := Run(EMPTY, ops).agreements[id].areas;
            -0.01 - Drift(|areas|) <= AreaWeight(StoredAreas(areas)) - 100.0 <= 0.01 + Drift(|areas|)
  {
    RunInv(ops);
    var _ := StoringDrifts(Run(EMPTY, ops).agreements[id].areas);
  }

  lemma {:induction false} StoredAreaAt(areas: seq<Area>, i: nat)
    requires i < |areas|
    ensures StoredAreas(areas)[i] == areas[i].(weight := KpiScoring.Round2(areas[i].weight))
  {
    if i < |areas| - 1 { StoredAreaAt(areas[..|areas| - 1], i); }
  }

  /** The score computed from the stored weights stays within the same distance above 100. */
  lemma StoredScoreRange(ops: seq<Op>, id: nat)
    requires id in Run(EMPTY, ops).agreements && NoNegatives(Run(EMPTY, ops).agreements[id].areas)
    ensures var areas := Run(EMPTY, ops).agreements[id].areas;
            0.0 <= KpiScoring.Round2(KpiScoring.Overall(ScoringAreas(StoredAreas(areas)))) <= 100.01 + Drift(|areas|)
  {
    var areas := Run(EMPTY, ops).agreements[id].areas;
    if areas != [] {
      StoredWeightsNearHundred(ops, id);
      StoredOverall(areas);
    }
  }

  lemma StoredIsValid(areas: seq<Area>)
    requires NoNegatives(areas)
    ensures KpiScoring.AllValid(ScoringAreas(StoredAreas(areas)))
  {
    var stored := StoredAreas(areas);
    forall i | 0 <= i < |areas|
      ensures ScoringAreas(stored)[i].weight >= 0.0 && KpiScoring.Valid(ScoringAreas(stored)[i].metrics)
    {
      StoredAreaAt(areas, i);
      ScoringAreaAt(stored, i);
      KpiScoring.RoundIsNear(areas[i].weight);
    }
  }

  lemma StoredOverall(areas: seq<Area>)
    requires NoNegatives(areas)
    ensures 0.0 <= KpiScoring.Round2(KpiScoring.Overall(ScoringAreas(StoredAreas(areas))))
                <= AreaWeight(StoredAreas(areas))
  {
    var scoring := ScoringAreas(StoredAreas(areas));
    StoredIsValid(areas);
    ScoringWeight(StoredAreas(areas));
    KpiScoring.OverallWithinWeight(scoring);
    var hundredths := StoringDrifts(areas);
    OverallInHundredths(KpiScoring.Overall(scoring), hundredths);
  }

  lemma OverallInHundredths(overall: real, hundredths: int)
    requires 0.0 <= overall <= KpiScoring.Hundredths(hundredths)
    ensures 0.0 <= KpiScoring.Round2(overall) <= KpiScoring.Hundredths(hundredths)
  {
    KpiScoring.RoundExact(hundredths);
    KpiScoring.RoundMonotone(overall, KpiScoring.Hundredths(hundredths));
    KpiScoring.RoundIsNear(overall);
  }

  predicate WholeHundredths(x: real) { (x * 100.0).Floor as real == x * 100.0 }

  predicate WholeWeights(areas: seq<Area>) { forall i :: 0 <= i < |areas| ==> WholeHundredths(areas[i].weight) }

  lemma RoundKeepsIff(x: real)
    ensures KpiScoring.Round2(x) == x <==> WholeHundredths(x)
  {
    if WholeHundredths(x) {
      KpiScoring.RoundExact((x * 100.0).Floor);
      assert KpiScoring.Hundredths((x * 100.0).Floor) == x;
    }
    if KpiScoring.Round2(x) == x {
      var hundredths := RoundIsHundredths(x);
      assert x * 100.0 == hundredths as real;
    }
  }

  /** Areas are stored as they were checked exactly when every weight is a whole number of hundredths. */
  lemma StoredIsCheckedIff(areas: seq<Area>)
    ensures StoredAreas(areas) == areas <==> WholeWeights(areas)
  {
    forall i | 0 <= i < |areas|
      ensures StoredAreas(areas)[i] == areas[i] <==> WholeHundredths(areas[i].weight)
    {
      StoredAreaAt(areas, i);
      RoundKeepsIff(areas[i].weight);
    }
  }

  /** In every reachable state, such weights are stored within 0.01 of 100, and the score is at most 100.01. */
  lemma WholeWeightsStay(ops: seq<Op>, id: nat)
    requires id in Run(EMPTY, ops).agreements && WholeWeights(Run(EMPTY, ops).agreements[id].areas)
    ensures var areas := Run(EMPTY, ops).agreements[id].areas;
            && StoredAreas(areas) == areas && Balanced(StoredAreas(areas))
            && (NoNegatives(areas) ==>
                  0.0 <= KpiScoring.Round2(KpiScoring.Overall(ScoringAreas(StoredAreas(areas)))) <= 100.01)
  {
    var areas := Run(EMPTY, ops).agreements[id].areas;
    StoredIsCheckedIff(areas);
    RunInv(ops);
    if NoNegatives(areas) { BalancedScoreRange(areas); }
  }

  const DRAFTER := Session(1, 7, TeamLead)

  const HALVES := [AreaRequest(0, "a", 50.005, None, []), AreaRequest(1, "b", 50.005, None, [])]

  const HALF_AREAS := [Area(0, "a", 50.005, 0, []), Area(1, "b", 50.005, 1, [])]

  lemma HalvesAreDrafted()
    ensures var s := Run(EMPTY, [CreateAgreement(DRAFTER, 0, 3, "2025-Q1"), UpsertAreas(DRAFTER, 0, HALVES)]);
            0 in s.agreements && s.agreements[0].areas == HALF_AREAS
  {
    var create, upsert := CreateAgreement(DRAFTER, 0, 3, "2025-Q1"), UpsertAreas(DRAFTER, 0, HALVES);
    assert [create, upsert][..1] == [create] && [create][..0] == [];
    var drafted := Step(EMPTY, create);
    assert Run(EMPTY, [create]) == drafted;
    assert drafted.agreements[0] == Agreement(1, 3, 7, "2025-Q1", Draft, []);
    HalvesAreCreated();
    assert Step(drafted, upsert) == WithAreas(drafted, 0, HALF_AREAS);
  }

  lemma HalvesAreCreated()
    ensures RequestWeight(HALVES) == 100.01 && NewAreas(HALVES) == HALF_AREAS
  {
    assert HALVES[..1] == [HALVES[0]] && [HALVES[0]][..0] == [];
    assert NewAreas([HALVES[0]]) == NewAreas([]) + [Area(0, "a", 50.005, 0, NewMetrics([]))];
    assert RequestWeight([HALVES[0]]) == 50.005;
  }

  lemma HalvesAreStored()
    ensures AreaWeight(StoredAreas(HALF_AREAS)) == 100.02
  {
    KpiScoring.RoundExact(5000);
    assert KpiScoring.Hundredths(5000) + 0.005 == 50.005 && KpiScoring.Hundredths(5001) == 50.01;
    assert HALF_AREAS[..1] == [HALF_AREAS[0]] && [HALF_AREAS[0]][..0] == [];
    var a, b := Area(0, "a", 50.01, 0, []), Area(1, "b", 50.01, 1, []);
    assert StoredAreas([HALF_AREAS[0]]) == StoredAreas([]) + [a];
    assert StoredAreas(HALF_AREAS) == [a, b];
    assert [a, b][..1] == [a] && [a][..0] == [];
    assert AreaWeight([a]) == 50.01;
  }

  /** The bound is met: two areas of 50.005 pass the check and are stored as 50.01 each, 100.02 in all. */
  lemma StoredWeightsDrift()
    ensures var s := Run(EMPTY, [CreateAgreement(DRAFTER, 0, 3, "2025-Q1"), UpsertAreas(DRAFTER, 0, HALVES)]);
            && 0 in s.agreements && |s.agreements[0].areas| == 2
            && AreaWeight(StoredAreas(s.agreements[0].areas)) == 100.02 == 100.01 + Drift(2)
  {
    HalvesAreDrafted();
    HalvesAreStored();
  }
}
