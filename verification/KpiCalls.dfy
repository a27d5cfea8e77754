/**
 What the calls of a run tell about KPI agreements: which calls are accepted, an agreement's terms, status and pending
 rows read off the accepted calls, and what an import and an upsert add, read off their rows.
 */
module KpiCalls {
  import opened Common
  import opened KpiAgreements

  // ---- Which calls are accepted ------------------------------------------------------------------------

  predicate Leads(session: Session) { session.role != Engineer && session.role != Executive }

  /** The agreement is of the caller's tenant, and an engineer's own. */
  predicate Reaches(s: State, session: Session, id: nat) {
    && id in s.agreements && s.agreements[id].tenantId == session.tenantId
    && (session.role == Engineer ==> s.agreements[id].engineerId == session.userId)
  }

  predicate Stands(s: State, session: Session, id: nat, status: Status) {
    Reaches(s, session, id) && s.agreements[id].status == status
  }

  /** No actual was recorded for a metric of the agreement. */
  predicate Unmeasured(s: State, id: nat)
    requires id in s.agreements
  {
    var areas := s.agreements[id].areas;
    forall i, j, k :: 0 <= i < |s.actuals| && 0 <= j < |areas| && 0 <= k < |areas[j].metrics| ==>
      s.actuals[i].metricId != areas[j].metrics[k].id
  }

  /** The engineer has no agreement for the period. */
  predicate Free(s: State, tenantId: nat, engineerId: nat, period: string) {
    forall id :: id in s.agreements && s.agreements[id].period == period ==>
      s.agreements[id].tenantId != tenantId || s.agreements[id].engineerId != engineerId
  }

  /** The calls that change something. */
  predicate Accepted(s: State, op: Op) {
    && Enabled(s, op)
    && match op
       case CreateAgreement(session, _, engineerId, period) =>
         Leads(session) && Free(s, session.tenantId, engineerId, period)
       case UpsertAreas(session, id, areas) =>
         Stands(s, session, id, Draft) && 99.99 <= RequestWeight(areas) <= 100.01 && Unmeasured(s, id)
       case Submit(session, id) => Leads(session) && Stands(s, session, id, Draft)
       case Accept(session, id) =>
         Stands(s, session, id, PendingReview) && s.agreements[id].engineerId == session.userId
       case Upload(session, id, _) => Reaches(s, session, id)
       case Import(session, id, _, _, _) => Stands(s, session, id, Draft) && id in s.pending && s.pending[id] != []
       case CreateActual(_, metricId, _) => HasMetric(s, metricId)
       case Ingest(_, _, definitionId, _, found) => definitionId.Some? && found.Some? && found.value.1.Some?
  }

  lemma UnmeasuredIff(s: State, id: nat)
    requires id in s.agreements
    ensures Unmeasured(s, id) <==> !Referenced(s.actuals, AreaIds(s.agreements[id].areas))
  {
    var areas := s.agreements[id].areas;
    if Referenced(s.actuals, AreaIds(areas)) {
      var i :| 0 <= i < |s.actuals| && s.actuals[i].metricId in AreaIds(areas);
      var j, k :| 0 <= j < |areas| && 0 <= k < |areas[j].metrics| && areas[j].metrics[k].id == s.actuals[i].metricId;
      assert !Unmeasured(s, id);
    }
    if !Unmeasured(s, id) {
      var i, j, k :| 0 <= i < |s.actuals| && 0 <= j < |areas| && 0 <= k < |areas[j].metrics|
          && s.actuals[i].metricId == areas[j].metrics[k].id;
      assert s.actuals[i].metricId in AreaIds(areas);
    }
  }

  lemma TakenIff(s: State, tenantId: nat, engineerId: nat, period: string)
    ensures Taken(s, tenantId, engineerId, period) <==> !Free(s, tenantId, engineerId, period)
  {
  }

  /** A call that is not accepted changes nothing and is refused, unless it is an event that counts nowhere. */
  lemma AcceptedIff(s: State, op: Op)
    requires Enabled(s, op)
    ensures !Accepted(s, op) ==> Step(s, op) == s
    ensures Apply(s, op).1.Ok? <==> Accepted(s, op) || op.Ingest?
  {
    match op
    case UpsertAreas(session, id, _) => if id in s.agreements { UnmeasuredIff(s, id); }
    case CreateAgreement(session, _, engineerId, period) => TakenIff(s, session.tenantId, engineerId, period);
    case _ =>
  }

  // ---- What the calls tell -----------------------------------------------------------------------------------

  datatype Act = Drafting | Submitting | Agreeing | Staging

  predicate Does(op: Op, id: nat, act: Act) {
    match act
    case Drafting => op.CreateAgreement? && op.id == id
    case Submitting => op.Submit? && op.id == id
    case Agreeing => op.Accept? && op.id == id
    case Staging => (op.Upload? || op.Import?) && op.id == id
  }

  /** The last accepted call of a run that does something to an agreement. */
  function LastCall(ops: seq<Op>, id: nat, act: Act): Option<Op> {
    if ops == [] then None
    else
      var init, last := ops[..|ops| - 1], ops[|ops| - 1];
      if Does(last, id, act) && Accepted(Run(EMPTY, init), last) then Some(last) else LastCall(init, id, act)
  }

  lemma {:induction false} LastCallDoes(ops: seq<Op>, id: nat, act: Act)
    ensures LastCall(ops, id, act).Some? ==> Does(LastCall(ops, id, act).value, id, act)
  {
    if ops != [] { LastCallDoes(ops[..|ops| - 1], id, act); }
  }

  /**
   An agreement has the parties and the period of the call that drafted it. It is under review once a lead submitted it
   and active once, after that, its own engineer accepted it.
   */
  predicate Told(a: Agreement, draft: Option<Op>, submit: Option<Op>, accept: Option<Op>) {
    && draft.Some? && draft.value.CreateAgreement?
    && a.tenantId == draft.value.session.tenantId && a.leadId == draft.value.session.userId
    && a.engineerId == draft.value.engineerId && a.period == draft.value.period && Leads(draft.value.session)
    && a.status == (if accept.Some? then Active else if submit.Some? then PendingReview else Draft)
    && (submit.Some? ==> submit.value.Submit? && Leads(submit.value.session))
    && (accept.Some? ==> submit.Some? && accept.value.Accept? && accept.value.session.userId == a.engineerId)
  }

  predicate AllTold(s: State, ops: seq<Op>, id: nat) {
    var draft, submit := LastCall(ops, id, Drafting), LastCall(ops, id, Submitting);
    var accept := LastCall(ops, id, Agreeing);
    if id in s.agreements then Told(s.agreements[id], draft, submit, accept)
    else draft.None? && submit.None? && accept.None?
  }

  /** What a call does to an agreement, but for its areas. */
  lemma CallTells(s: State, op: Op, id: nat)
    ensures var s' := Step(s, op);
            && (id in s'.agreements <==> id in s.agreements || (Does(op, id, Drafting) && Accepted(s, op)))
            && (Does(op, id, Drafting) && Accepted(s, op) ==>
                  id !in s.agreements && s'.agreements[id] == Agreement(op.session.tenantId, op.engineerId,
                    op.session.userId, op.period, Draft, []))
            && (id in s.agreements ==>
                  && var a, b := s.agreements[id], s'.agreements[id];
                  && b.tenantId == a.tenantId && b.engineerId == a.engineerId && b.leadId == a.leadId
                  && b.period == a.period
                  && b.status == if Does(op, id, Submitting) && Accepted(s, op) then PendingReview
                                 else if Does(op, id, Agreeing) && Accepted(s, op) then Active else a.status)
  {
    if Enabled(s, op) {
      AcceptedIff(s, op);
      if id in s.agreements { StepEvolves(s, op, id); }
    }
  }

  lemma {:induction false} CallsTellAgreements(ops: seq<Op>, id: nat)
    ensures AllTold(Run(EMPTY, ops), ops, id)
  {
    if ops != [] {
      var init, last := ops[..|ops| - 1], ops[|ops| - 1];
      CallsTellAgreements(init, id);
      CallTells(Run(EMPTY, init), last, id);
    }
  }

  /** The rows waiting to be imported are those of the last upload, unless an import took them since. */
  lemma {:induction false} CallsTellPending(ops: seq<Op>, id: nat)
    ensures var s, call := Run(EMPTY, ops), LastCall(ops, id, Staging);
            && (id in s.pending <==> call.Some? && call.value.Upload?)
            && (id in s.pending ==> s.pending[id] == call.value.rows)
  {
    if ops != [] {
      var init, last := ops[..|ops| - 1], ops[|ops| - 1];
      CallsTellPending(init, id);
      CallStages(Run(EMPTY, init), last, id);
    }
  }

  lemma CallStages(s: State, op: Op, id: nat)
    ensures var s' := Step(s, op);
            if Does(op, id, Staging) && Accepted(s, op)
            then (id in s'.pending <==> op.Upload?) && (op.Upload? ==> s'.pending[id] == op.rows)
            else (id in s'.pending <==> id in s.pending) && (id in s.pending ==> s'.pending[id] == s.pending[id])
  {
    if Enabled(s, op) { AcceptedIff(s, op); }
  }

  /** The actuals that the calls recorded: what was said by hand, and one for each event that counts. */
  function ToldActuals(ops: seq<Op>): seq<Actual> {
    if ops == [] then []
    else
      var init, last := ops[..|ops| - 1], ops[|ops| - 1];
      ToldActuals(init)
      + if !Accepted(Run(EMPTY, init), last) then []
        else if last.CreateActual? then [Actual(last.metricId, last.value, Manual)]
        else if last.Ingest? then [Actual(last.found.value.1.value, 1.0, last.source)]
        else []
  }

  lemma {:induction false} CallsTellActuals(ops: seq<Op>)
    ensures Run(EMPTY, ops).actuals == ToldActuals(ops)
  {
    if ops != [] {
      var init, last := ops[..|ops| - 1], ops[|ops| - 1];
      var s := Run(EMPTY, init);
      CallsTellActuals(init);
      if Enabled(s, last) { AcceptedIff(s, last); }
      assert s.actuals + [] == s.actuals;
    }
  }

  /** How many actuals a metric has. */
  function CountFor(actuals: seq<Actual>, metricId: nat): nat {
    if actuals == [] then 0
    else
      CountFor(actuals[..|actuals| - 1], metricId) + if actuals[|actuals| - 1].metricId == metricId then 1 else 0
  }

  predicate EventsOnly(actuals: seq<Actual>, metricId: nat) {
    forall i :: 0 <= i < |actuals| && actuals[i].metricId == metricId ==> actuals[i].source != Manual
  }

  lemma {:induction false} EventsAreOne(ops: seq<Op>)
    ensures forall i :: 0 <= i < |ToldActuals(ops)| && ToldActuals(ops)[i].source != Manual
              ==> ToldActuals(ops)[i].value == 1.0
  {
    if ops != [] { EventsAreOne(ops[..|ops| - 1]); }
  }

  lemma {:induction false} OnesAreCounted(actuals: seq<Actual>, metricId: nat)
    requires forall i :: 0 <= i < |actuals| && actuals[i].metricId == metricId ==> actuals[i].value == 1.0
    ensures SumFor(actuals, metricId) == CountFor(actuals, metricId) as real
  {
    if actuals != [] { OnesAreCounted(actuals[..|actuals| - 1], metricId); }
  }

  /** In every run the stored score of a metric that nobody recorded by hand is the number of its events. */
  lemma ScoreCountsEvents(ops: seq<Op>, id: nat, i: nat, j: nat)
    requires var s := Run(EMPTY, ops);
             id in s.agreements && i < |s.agreements[id].areas| && j < |s.agreements[id].areas[i].metrics|
             && EventsOnly(s.actuals, s.agreements[id].areas[i].metrics[j].id)
    ensures var s := Run(EMPTY, ops);
            var m := s.agreements[id].areas[i].metrics[j];
            (if m.actualScore.Some? then m.actualScore.value else 0.0) == CountFor(s.actuals, m.id) as real
  {
    var s := Run(EMPTY, ops);
    var m := s.agreements[id].areas[i].metrics[j];
    CallsTellActuals(ops);
    EventsAreOne(ops);
    OnesAreCounted(s.actuals, m.id);
    StoredScoreLags(ops, id, i, j);
    NothingByHand(s.actuals, m.id);
  }

  lemma {:induction false} NothingByHand(actuals: seq<Actual>, metricId: nat)
    requires EventsOnly(actuals, metricId)
    ensures ManualSince(actuals, metricId) == 0.0
  {
    if actuals != [] {
      var init := actuals[..|actuals| - 1];
      assert forall i :: 0 <= i < |init| ==> init[i] == actuals[i];
      NothingByHand(init, metricId);
    }
  }

  // ---- What an import adds ---------------------------------------------------------------------------------

  /** A row with something to say and something to reach. */
  predicate Usable(row: ImportRow) {
    (exists k :: 0 <= k < |row.description| && !IsWhite(row.description[k])) && row.target > 0.0
  }

  predicate Increasing(kept: seq<nat>) { forall a, b :: 0 <= a < b < |kept| ==> kept[a] < kept[b] }

  predicate HoldsUsable(kept: seq<nat>, rows: seq<ImportRow>) {
    forall i: nat :: i < |rows| && Usable(rows[i]) ==> i in kept
  }

  /** An unscored metric with what a usable row says. */
  predicate FromRow(m: Metric, rows: seq<ImportRow>, i: nat, firstId: nat) {
    && i < |rows| && Usable(rows[i]) && m.id == firstId + i && m.definitionId == None && m.actualScore == None
    && m.description == rows[i].description && m.weight == rows[i].weight && m.target == rows[i].target
  }

  /** One metric for each usable row, in the order of the rows; `kept` lists the rows. */
  predicate FromRows(gained: seq<Metric>, rows: seq<ImportRow>, kept: seq<nat>, firstId: nat) {
    && Increasing(kept) && HoldsUsable(kept, rows) && |gained| == |kept|
    && forall a :: 0 <= a < |kept| ==> FromRow(gained[a], rows, kept[a], firstId)
  }

  lemma UsableIff(row: ImportRow)
    ensures Usable(row) <==> !Skipped(row)
  {
  }

  lemma {:induction false} RowsBecomeMetrics(rows: seq<ImportRow>, firstId: nat) returns (kept: seq<nat>)
    ensures FromRows(ImportedMetrics(rows, firstId), rows, kept, firstId)
  {
    kept := [];
    if rows != [] {
      var i := |rows| - 1;
      kept := RowsBecomeMetrics(rows[..i], firstId);
      var gained := ImportedMetrics(rows[..i], firstId);
      UsableIff(rows[i]);
      HoldsLonger(rows, kept);
      StillFromRows(rows, gained, kept, firstId);
      if Usable(rows[i]) {
        ListedBefore(rows[..i], gained, kept, firstId);
        kept := kept + [i];
      }
    }
  }

  lemma HoldsLonger(rows: seq<ImportRow>, kept: seq<nat>)
    requires rows != [] && HoldsUsable(kept, rows[..|rows| - 1])
    ensures HoldsUsable(if Usable(rows[|rows| - 1]) then kept + [|rows| - 1] else kept, rows)
  {
    var i := |rows| - 1;
    var longer := if Usable(rows[i]) then kept + [i] else kept;
    forall k: nat | k < |rows| && Usable(rows[k])
      ensures k in longer
    {
      if k < i { assert rows[..i][k] == rows[k] && k in kept; } else { assert longer[|longer| - 1] == i; }
    }
  }

  lemma StillFromRows(rows: seq<ImportRow>, gained: seq<Metric>, kept: seq<nat>, firstId: nat)
    requires rows != [] && FromRows(gained, rows[..|rows| - 1], kept, firstId)
    ensures forall a :: 0 <= a < |kept| ==> FromRow(gained[a], rows, kept[a], firstId)
  {
    forall a | 0 <= a < |kept|
      ensures FromRow(gained[a], rows, kept[a], firstId)
    {
      assert FromRow(gained[a], rows[..|rows| - 1], kept[a], firstId);
    }
  }

  lemma ListedBefore(rows: seq<ImportRow>, gained: seq<Metric>, kept: seq<nat>, firstId: nat)
    requires FromRows(gained, rows, kept, firstId)
    ensures Increasing(kept + [|rows|])
  {
    assert forall a :: 0 <= a < |kept| ==> FromRow(gained[a], rows, kept[a], firstId) && kept[a] < |rows|;
  }

  /** The areas after an import: nothing is lost, and one area gained metrics at its end. */
  predicate Gained(before: seq<Area>, after: seq<Area>, at: nat, gained: seq<Metric>) {
    && at < |after| == |before|
    && (forall i :: 0 <= i < |before| ==> before[at].sortOrder <= before[i].sortOrder)
    && (forall i :: 0 <= i < |before| && i != at ==> after[i] == before[i])
    && after[at].id == before[at].id && after[at].name == before[at].name && after[at].weight == before[at].weight
    && after[at].sortOrder == before[at].sortOrder && after[at].metrics == before[at].metrics + gained
  }

  /** An agreement without areas gets one of weight 100 that holds the imported metrics. */
  predicate FirstArea(after: seq<Area>, areaId: nat, gained: seq<Metric>) {
    && |after| == 1 && after[0].id == areaId && after[0].name == "Imported Metrics" && after[0].weight == 100.0
    && after[0].sortOrder == 0 && after[0].metrics == gained
  }

  /**
   An accepted import leaves the metrics of every area in place. The area with the least sort order, or a new one when
   there is none, gains exactly one unscored metric for each usable row, in the rows' order; the rows are then gone, and
   nothing else changes.
   */
  lemma ImportAddsRows(s: State, op: Op) returns (kept: seq<nat>, gained: seq<Metric>)
    requires op.Import? && Accepted(s, op)
    ensures var s' := Step(s, op);
            && op.id in s'.agreements && FromRows(gained, s.pending[op.id], kept, op.firstId)
            && s'.agreements == s.agreements[op.id := s.agreements[op.id].(areas := s'.agreements[op.id].areas)]
            && s'.actuals == s.actuals && s'.pending == s.pending - {op.id}
            && var before, after := s.agreements[op.id].areas, s'.agreements[op.id].areas;
               if before == [] then FirstArea(after, op.areaId, gained) else Gained(before, after, op.pick, gained)
  {
    gained := ImportedMetrics(s.pending[op.id], op.firstId);
    kept := RowsBecomeMetrics(s.pending[op.id], op.firstId);
  }

  function UsableRows(rows: seq<ImportRow>): nat { |set i | 0 <= i < |rows| && Usable(rows[i])| }

  /** The answer of an import is how many of the rows are usable. */
  lemma ImportCounts(rows: seq<ImportRow>, firstId: nat)
    ensures |ImportedMetrics(rows, firstId)| == UsableRows(rows)
  {
    var kept := RowsBecomeMetrics(rows, firstId);
    var usable := set i | 0 <= i < |rows| && Usable(rows[i]);
    forall k: nat
      ensures k in usable <==> k in kept
    {
      if k in kept {
        var a :| 0 <= a < |kept| && kept[a] == k;
        assert FromRow(ImportedMetrics(rows, firstId)[a], rows, kept[a], firstId);
      }
    }
    assert usable == Members(kept);
    DistinctCount(kept);
  }

  function Members(kept: seq<nat>): set<nat> { set k | k in kept }

  lemma LastIsNew(kept: seq<nat>)
    requires Increasing(kept) && kept != []
    ensures Increasing(kept[..|kept| - 1]) && kept[|kept| - 1] !in Members(kept[..|kept| - 1])
  {
    var init := kept[..|kept| - 1];
    forall a | 0 <= a < |init|
      ensures init[a] != kept[|kept| - 1]
    {
      assert kept[a] < kept[|kept| - 1];
    }
  }

  lemma {:induction false} DistinctCount(kept: seq<nat>)
    requires Increasing(kept)
    ensures |Members(kept)| == |kept|
  {
    if kept == [] {
      assert Members(kept) == {};
    } else {
      var init, last := kept[..|kept| - 1], kept[|kept| - 1];
      LastIsNew(kept);
      DistinctCount(init);
      MembersLast(init, last);
      assert Members(kept) == Members(init) + {last} by { assert kept == init + [last]; }
    }
  }

  lemma MembersLast(kept: seq<nat>, last: nat)
    ensures Members(kept + [last]) == Members(kept) + {last}
  {
    assert forall k :: k in kept + [last] <==> k in kept || k == last;
  }

  // ---- What an upsert writes ---------------------------------------------------------------------------------

  predicate MetricFrom(m: Metric, request: MetricRequest) {
    && m.id == request.id && m.definitionId == request.definitionId && m.description == request.description
    && m.weight == request.weight && m.target == request.target && m.actualScore == None
  }

  /** An area as the `i`-th of a request asks for it; without a sort order its position is its order. */
  predicate AreaFrom(area: Area, request: AreaRequest, i: nat) {
    && area.id == request.id && area.name == request.name && area.weight == request.weight
    && area.sortOrder == (if request.sortOrder.Some? then request.sortOrder.value else i)
    && |area.metrics| == |request.metrics|
    && forall j :: 0 <= j < |area.metrics| ==> MetricFrom(area.metrics[j], request.metrics[j])
  }

  lemma {:induction false} MetricsFrom(requests: seq<MetricRequest>)
    ensures |NewMetrics(requests)| == |requests|
    ensures forall j :: 0 <= j < |requests| ==> MetricFrom(NewMetrics(requests)[j], requests[j])
  {
    if requests != [] { MetricsFrom(requests[..|requests| - 1]); }
  }

  lemma {:induction false} AreasFrom(requests: seq<AreaRequest>)
    ensures |NewAreas(requests)| == |requests|
    ensures forall i :: 0 <= i < |requests| ==> AreaFrom(NewAreas(requests)[i], requests[i], i)
  {
    if requests != [] {
      AreasFrom(requests[..|requests| - 1]);
      MetricsFrom(requests[|requests| - 1].metrics);
    }
  }

  /** An accepted upsert replaces the areas by those of the request, unscored, and changes nothing else. */
  lemma UpsertWritesRequest(s: State, op: Op)
    requires op.UpsertAreas? && Accepted(s, op)
    ensures var s' := Step(s, op);
            && op.id in s'.agreements
            && s'.agreements == s.agreements[op.id := s.agreements[op.id].(areas := s'.agreements[op.id].areas)]
            && s'.actuals == s.actuals && s'.pending == s.pending
            && var areas := s'.agreements[op.id].areas;
               && |areas| == |op.areas|
               && forall i :: 0 <= i < |areas| ==> AreaFrom(areas[i], op.areas[i], i)
  {
    AcceptedIff(s, op);
    AreasFrom(op.areas);
  }
}
