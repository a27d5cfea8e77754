/**
 What the calls of a run tell about its tickets: which calls are accepted, and every column of a ticket, its timers and
 its notes, read off the accepted calls alone.
 */
module TicketCalls {
  import opened Common
  import opened Tickets

  // ---- Which calls are accepted ----------------------------------------------------------------------

  /** How far a ticket has come on the way of one that nobody escalates. */
  function Place(status: Status): Option<nat> {
    match status
    case New => Some(0)
    case TeamAssigned => Some(1)
    case Unassigned => Some(2)
    case Assigned => Some(3)
    case InProgress => Some(4)
    case Resolved => Some(5)
    case Closed => Some(6)
    case _ => None
  }

  /** One step on that way, or the detour over ESCALATED. */
  predicate Follows(from: Status, to: Status) {
    || (Place(from).Some? && Place(to) == Some(Place(from).value + 1))
    || (from == InProgress && to == Escalated)
    || (from == Escalated && (to == InProgress || to == Resolved))
  }

  lemma TableIsTheWay(from: Status, to: Status)
    ensures IsTransitionAllowed(from, to) <==> Follows(from, to)
  {
  }

  /** The caller's tenant owns the ticket, and it has one of these statuses. */
  predicate Stands(s: State, tenantId: nat, id: nat, statuses: set<Status>) {
    id in s.tickets && s.tickets[id].tenantId == tenantId && s.tickets[id].status in statuses
  }

  /** The calls that change their ticket. */
  predicate Accepted(s: State, op: Op) {
    match op
    case Create(_, id, validRequest, _, _, _) => validRequest && id !in s.tickets
    case WebIntake(_, id, configured, _, _, _) => configured && id !in s.tickets
    case EmailIntake(_, id, configured, duplicate, _, _) => configured && !duplicate && id !in s.tickets
    case UpdateStatus(session, id, to, _, _, _, _) =>
      && id in s.tickets && s.tickets[id].tenantId == session.tenantId && Follows(s.tickets[id].status, to)
      && (to == Escalated || to == Closed ==> session.role != Engineer && session.role != Executive)
    case Claim(session, id, capacity, _, _) =>
      && Stands(s, session.tenantId, id, {TeamAssigned, Unassigned})
      && |OpenFor(s.tickets, session.tenantId, session.userId)| < capacity
    case AutoAssignJob(tenantId, id, enabled, engineerId, _, _) =>
      && Stands(s, tenantId, id, {TeamAssigned, Unassigned}) && s.tickets[id].teamId.Some? && enabled
      && engineerId.Some?
    case PickupSlaJob(tenantId, id, _) => Stands(s, tenantId, id, {TeamAssigned, Unassigned})
    case ResolutionSlaJob(tenantId, id, _) =>
      && id in s.tickets && s.tickets[id].tenantId == tenantId && s.tickets[id].status !in {Resolved, Closed}
      && ResolutionDeadlines(s.timers, id) != []
    case Reassign(session, id, _, engineerActive, _) =>
      && session.role != Engineer && session.role != Executive && engineerActive
      && id in s.tickets && s.tickets[id].tenantId == session.tenantId
      && s.tickets[id].status !in {Escalated, Resolved, Closed}
  }

  /** The state after one call, which a job makes only when it was scheduled. */
  function After(s: State, op: Op): State { if Enabled(s, op) then Apply(s, op).0 else s }

  /** An accepted call writes, and any other leaves everything as it was. */
  lemma AcceptedIff(s: State, op: Op)
    ensures Accepted(s, op) <==> Enabled(s, op) && EffectOf(s, op).Write?
    ensures !Accepted(s, op) ==> After(s, op) == s
  {
    if op.UpdateStatus? && op.id in s.tickets { TableIsTheWay(s.tickets[op.id].status, op.to); }
  }

  /** Why a status update is refused. */
  lemma UpdateRefusedIff(s: State, op: Op)
    requires op.UpdateStatus?
    ensures var (_, answer) := Apply(s, op);
            var known := op.id in s.tickets && s.tickets[op.id].tenantId == op.session.tenantId;
            && (answer == Ok(()) <==> Accepted(s, op)) && (answer == Err(NotFound) <==> !known)
            && (answer == Err(BadRequest) <==> known && !Follows(s.tickets[op.id].status, op.to))
            && (answer == Ok(()) || answer.error in {NotFound, BadRequest, Forbidden})
  {
    AcceptedIff(s, op);
    if op.id in s.tickets { TableIsTheWay(s.tickets[op.id].status, op.to); }
  }

  /** Why a claim is refused. */
  lemma ClaimRefusedIff(s: State, op: Op)
    requires op.Claim?
    ensures var (_, answer) := Apply(s, op);
            var known := op.id in s.tickets && s.tickets[op.id].tenantId == op.session.tenantId;
            && (answer == Ok(()) <==> Accepted(s, op)) && (answer == Err(NotFound) <==> !known)
            && (answer == Err(BadRequest) <==> known && s.tickets[op.id].status !in {TeamAssigned, Unassigned})
            && (answer == Ok(()) || answer.error in {NotFound, BadRequest, Forbidden})
  {
    AcceptedIff(s, op);
  }

  // ---- What a call does to its ticket ------------------------------------------------------------------

  datatype Act =
    Bearing | Moving | Routing | Assigning | Timing | Resolving | Closing | MissingPickup | MissingResolution

  predicate SetsAssignee(op: Op) { op.UpdateStatus? && op.to == Assigned && op.assigneeId.Some? }

  predicate Does(op: Op, act: Act) {
    match act
    case Bearing => op.Create? || op.WebIntake? || op.EmailIntake?
    case Moving => !op.PickupSlaJob?
    case Routing =>
      || op.Create? || op.WebIntake? || op.EmailIntake?
      || (op.UpdateStatus? && op.to == TeamAssigned && op.teamId.Some?)
    case Assigning => SetsAssignee(op) || op.Claim? || op.AutoAssignJob? || op.Reassign?
    case Timing => SetsAssignee(op) || op.Claim? || op.AutoAssignJob?
    case Resolving => op.UpdateStatus? && op.to == Resolved
    case Closing => op.UpdateStatus? && op.to == Closed
    case MissingPickup => op.PickupSlaJob?
    case MissingResolution => op.ResolutionSlaJob?
  }

  /** The status a call moves its ticket to. */
  function TargetOf(op: Op): Status {
    match op
    case UpdateStatus(_, _, to, _, _, _, _) => to
    case Create(_, _, _, teamId, _, _) => if teamId.Some? then TeamAssigned else New
    case WebIntake(_, _, _, teamId, _, _) => if teamId.Some? then TeamAssigned else New
    case EmailIntake(_, _, _, _, _, _) => TeamAssigned
    case ResolutionSlaJob(_, _, _) => Escalated
    case _ => Assigned
  }

  function UserOf(op: Op): Option<nat> {
    match op
    case UpdateStatus(_, _, _, assigneeId, _, _, _) => assigneeId
    case Claim(session, _, _, _, _) => Some(session.userId)
    case AutoAssignJob(_, _, _, engineerId, _, _) => engineerId
    case Reassign(_, _, toEngineer, _, _) => Some(toEngineer)
    case _ => None
  }

  function TeamOf(op: Op): Option<nat> {
    match op
    case EmailIntake(_, _, _, _, triageTeam, _) => Some(triageTeam)
    case UpdateStatus(_, _, _, _, teamId, _, _) => teamId
    case Create(_, _, _, teamId, _, _) => teamId
    case WebIntake(_, _, _, teamId, _, _) => teamId
    case _ => None
  }

  /** A new ticket with a team is to be picked up within so many minutes; an email sets no such date. */
  function PickupOf(op: Op): Option<Time> {
    if (op.Create? || op.WebIntake?) && op.teamId.Some? then Some(op.now + op.pickupMinutes) else None
  }

  /** When an assigned ticket is to be resolved. */
  function DueOf(op: Op): Time
    requires Does(op, Timing)
  {
    op.now + op.resolutionMinutes
  }

  /** The last accepted call of a run that does something to a ticket. */
  function LastCall(ops: seq<Op>, id: nat, act: Act): Option<Op> {
    if ops == [] then None
    else
      var init, last := ops[..|ops| - 1], ops[|ops| - 1];
      if last.id == id && Does(last, act) && Accepted(Run(EMPTY, init), last) then Some(last)
      else LastCall(init, id, act)
  }

  lemma LastCallStep(ops: seq<Op>, op: Op, id: nat, act: Act)
    ensures LastCall(ops + [op], id, act)
            == if op.id == id && Does(op, act) && Accepted(Run(EMPTY, ops), op) then Some(op)
               else LastCall(ops, id, act)
  {
    assert (ops + [op])[..|ops|] == ops;
  }

  lemma {:induction false} LastCallDoes(ops: seq<Op>, id: nat, act: Act)
    ensures LastCall(ops, id, act).Some? ==> Does(LastCall(ops, id, act).value, act)
  {
    if ops != [] { LastCallDoes(ops[..|ops| - 1], id, act); }
  }

  function TimeOf(op: Option<Op>): Option<Time> { if op.Some? then Some(op.value.now) else None }

  function DueTime(ops: seq<Op>, id: nat): Option<Time> {
    LastCallDoes(ops, id, Timing);
    var call := LastCall(ops, id, Timing);
    if call.Some? then Some(DueOf(call.value)) else None
  }

  /** Every column of a ticket is what the last call that sets it says. */
  predicate Told(t: Ticket, ops: seq<Op>, id: nat) {
    var birth, move, route := LastCall(ops, id, Bearing), LastCall(ops, id, Moving), LastCall(ops, id, Routing);
    var assignment := LastCall(ops, id, Assigning);
    && birth.Some? && t.tenantId == TenantOf(birth.value) && t.slaPickupDeadline == PickupOf(birth.value)
    && move.Some? && t.status == TargetOf(move.value)
    && route.Some? && t.teamId == TeamOf(route.value)
    && t.assigneeId == (if assignment.Some? then UserOf(assignment.value) else None)
    && t.assignedAt == TimeOf(assignment) && t.slaResolutionDeadline == DueTime(ops, id)
    && t.resolvedAt == TimeOf(LastCall(ops, id, Resolving)) && t.closedAt == TimeOf(LastCall(ops, id, Closing))
    && (t.slaPickupBreached <==> LastCall(ops, id, MissingPickup).Some?)
    && (t.slaResolutionBreached <==> LastCall(ops, id, MissingResolution).Some?)
  }

  predicate Untold(ops: seq<Op>, id: nat) { forall act :: LastCall(ops, id, act).None? }

  /** The tickets of a state are those the calls made, as the calls told. */
  predicate AllTold(s: State, ops: seq<Op>, id: nat) {
    if id in s.tickets then Told(s.tickets[id], ops, id) else Untold(ops, id)
  }

  lemma OtherCallTells(s: State, ops: seq<Op>, op: Op, id: nat)
    requires s == Run(EMPTY, ops) && AllTold(s, ops, id) && (op.id != id || !Accepted(s, op))
    ensures AllTold(After(s, op), ops + [op], id)
  {
    AcceptedIff(s, op);
    forall act
      ensures LastCall(ops + [op], id, act) == LastCall(ops, id, act)
    {
      LastCallStep(ops, op, id, act);
    }
    if op.id != id && id in s.tickets { assert After(s, op).tickets[id] == s.tickets[id]; }
  }

  /** A call by the columns it sets, over what its ticket held before. */
  predicate Tells(op: Op, t: Option<Ticket>, t': Ticket) {
    && t'.status == (if Does(op, Moving) then TargetOf(op) else if t.Some? then t.value.status else t'.status)
    && t'.teamId == (if Does(op, Routing) then TeamOf(op) else if t.Some? then t.value.teamId else t'.teamId)
    && t'.assigneeId == (if Does(op, Assigning) then UserOf(op) else if t.Some? then t.value.assigneeId else None)
    && t'.assignedAt == (if Does(op, Assigning) then Some(op.now) else if t.Some? then t.value.assignedAt else None)
    && t'.slaResolutionDeadline
       == (if Does(op, Timing) then Some(DueOf(op)) else if t.Some? then t.value.slaResolutionDeadline else None)
    && t'.resolvedAt == (if Does(op, Resolving) then Some(op.now) else if t.Some? then t.value.resolvedAt else None)
    && t'.closedAt == (if Does(op, Closing) then Some(op.now) else if t.Some? then t.value.closedAt else None)
    && (t'.slaPickupBreached <==> Does(op, MissingPickup) || (t.Some? && t.value.slaPickupBreached))
    && (t'.slaResolutionBreached <==> Does(op, MissingResolution) || (t.Some? && t.value.slaResolutionBreached))
    && (t.Some? <==> !Does(op, Bearing))
    && if t.Some? then t'.tenantId == t.value.tenantId && t'.slaPickupDeadline == t.value.slaPickupDeadline
       else t'.tenantId == TenantOf(op) && t'.slaPickupDeadline == PickupOf(op)
  }

  function Before(s: State, id: nat): Option<Ticket> { if id in s.tickets then Some(s.tickets[id]) else None }

  lemma CallTells(s: State, op: Op)
    requires Accepted(s, op)
    ensures op.id in After(s, op).tickets && Tells(op, Before(s, op.id), After(s, op).tickets[op.id])
  {
    AcceptedIff(s, op);
    match op
    case UpdateStatus(_, _, _, _, _, _, _) => UpdateTells(s.tickets[op.id], op);
    case Claim(session, id, _, _, _) => AssignmentTells(s.tickets[id], op, StatusChanged, session.userId);
    case AutoAssignJob(_, id, _, engineerId, _, _) =>
      AssignmentTells(s.tickets[id], op, AutoAssigned, engineerId.value);
    case Create(_, _, _, _, _, _) => BirthTells(s, op);
    case WebIntake(_, _, _, _, _, _) => BirthTells(s, op);
    case EmailIntake(_, _, _, _, _, _) => BirthTells(s, op);
    case _ => WriteTells(s, op);
  }

  lemma BirthTells(s: State, op: Op)
    requires Does(op, Bearing) && EffectOf(s, op).Write?
    ensures op.id !in s.tickets && Tells(op, None, EffectOf(s, op).ticket)
  {
  }

  lemma WriteTells(s: State, op: Op)
    requires (op.PickupSlaJob? || op.ResolutionSlaJob? || op.Reassign?) && EffectOf(s, op).Write?
    ensures op.id in s.tickets && Tells(op, Some(s.tickets[op.id]), EffectOf(s, op).ticket)
  {
  }

  lemma UpdateTells(t: Ticket, op: Op)
    requires op.UpdateStatus?
    ensures Tells(op, Some(t), Merge(t, UpdateFor(op.to, op.assigneeId, op.teamId, op.resolutionMinutes, op.now)))
  {
  }

  lemma AssignmentTells(t: Ticket, op: Op, event: EventType, userId: nat)
    requires (op.Claim? || op.AutoAssignJob?) && UserOf(op) == Some(userId)
    ensures Tells(op, Some(t), AssignEffect(t, op.id, event, userId, op.resolutionMinutes, op.now).ticket)
  {
  }

  lemma OwnCallTells(s: State, ops: seq<Op>, op: Op)
    requires s == Run(EMPTY, ops) && AllTold(s, ops, op.id) && Accepted(s, op)
    ensures AllTold(After(s, op), ops + [op], op.id)
  {
    CallTells(s, op);
    forall act
      ensures LastCall(ops + [op], op.id, act) == if Does(op, act) then Some(op) else LastCall(ops, op.id, act)
    {
      LastCallStep(ops, op, op.id, act);
    }
  }

  /** In every run, batch reassignments included, the calls tell every column of every ticket. */
  lemma {:induction false} CallsTellTickets(ops: seq<Op>, id: nat)
    ensures AllTold(Run(EMPTY, ops), ops, id)
  {
    if ops == [] {
      assert forall act :: LastCall(ops, id, act).None?;
    } else {
      var init, last := ops[..|ops| - 1], ops[|ops| - 1];
      var s := Run(EMPTY, init);
      assert ops == init + [last];
      CallsTellTickets(init, id);
      RunLast(EMPTY, init, last);
      if last.id == id && Accepted(s, last) {
        OwnCallTells(s, init, last);
      } else {
        OtherCallTells(s, init, last, id);
      }
    }
  }

  // ---- Timers and notes ------------------------------------------------------------------------------------

  /** When the accepted assigning calls want the ticket resolved, oldest first. */
  function DueTimes(ops: seq<Op>, id: nat): seq<Time> {
    if ops == [] then []
    else
      var init, last := ops[..|ops| - 1], ops[|ops| - 1];
      DueTimes(init, id)
      + if last.id == id && Does(last, Timing) && Accepted(Run(EMPTY, init), last) then [DueOf(last)] else []
  }

  lemma DueTimesStep(ops: seq<Op>, op: Op, id: nat)
    ensures DueTimes(ops + [op], id)
            == DueTimes(ops, id)
               + if op.id == id && Does(op, Timing) && Accepted(Run(EMPTY, ops), op) then [DueOf(op)] else []
  {
    assert (ops + [op])[..|ops|] == ops;
  }

  /** The timers of an accepted call. */
  function Scheduled(s: State, op: Op): seq<Timer> {
    if Does(op, Timing) then [ResolutionTimer(op.id, DueOf(op))]
    else if Does(op, MissingPickup) then [AutoAssignTimer(op.id)]
    else if op.Create? && op.teamId.Some? then [PickupTimer(op.id, op.now + op.pickupMinutes)]
    else if op.UpdateStatus? && op.to == TeamAssigned && op.id in s.tickets
            && s.tickets[op.id].slaPickupDeadline.Some?
    then [PickupTimer(op.id, s.tickets[op.id].slaPickupDeadline.value)]
    else []
  }

  lemma CallSchedules(s: State, op: Op)
    ensures After(s, op).timers == if Accepted(s, op) then s.timers + Scheduled(s, op) else s.timers
  {
    AcceptedIff(s, op);
    match op
    case UpdateStatus(_, _, _, _, _, _, _) =>
    case Claim(_, _, _, _, _) =>
    case AutoAssignJob(_, _, _, _, _, _) =>
    case Create(_, _, _, _, _, _) =>
    case _ =>
  }

  lemma {:induction false} TimersAppend(a: seq<Timer>, b: seq<Timer>, id: nat)
    ensures PickupDeadlines(a + b, id) == PickupDeadlines(a, id) + PickupDeadlines(b, id)
    ensures AssignmentChecks(a + b, id) == AssignmentChecks(a, id) + AssignmentChecks(b, id)
  {
    if b == [] {
      assert a + b == a;
    } else {
      var init := b[..|b| - 1];
      assert (a + b)[..|a + b| - 1] == a + init && (a + b)[|a + b| - 1] == b[|b| - 1];
      TimersAppend(a, init, id);
    }
  }

  /** One timer by itself. */
  lemma SingleTimer(m: Timer, id: nat)
    ensures ResolutionDeadlines([m], id) == if m.ticketId == id && m.ResolutionTimer? then [m.deadline] else []
    ensures PickupDeadlines([m], id) == if m.ticketId == id && m.PickupTimer? then [m.deadline] else []
    ensures AssignmentChecks([m], id) == if m == AutoAssignTimer(id) then 1 else 0
  {
    assert [m][..0] == [];
  }

  predicate NewUntimed(s: State, id: nat) {
    id in s.tickets && s.tickets[id].status == New ==> s.tickets[id].slaPickupDeadline.None?
  }

  /** No call moves a ticket with a pickup date to a team. */
  lemma RoutedIsNew(s: State, op: Op)
    requires Accepted(s, op) && op.UpdateStatus? && op.to == TeamAssigned
    ensures op.id in s.tickets && s.tickets[op.id].status == New
  {
  }

  /** The timers an accepted call schedules for a ticket. */
  lemma ScheduledFor(s: State, op: Op, id: nat)
    requires Accepted(s, op) && NewUntimed(s, id)
    ensures var own, more := op.id == id, Scheduled(s, op);
            && PickupDeadlines(more, id)
               == (if own && op.Create? && op.teamId.Some? then [op.now + op.pickupMinutes] else [])
            && AssignmentChecks(more, id) == (if own && Does(op, MissingPickup) then 1 else 0)
  {
    if op.UpdateStatus? && op.to == TeamAssigned { RoutedIsNew(s, op); }
    var more := Scheduled(s, op);
    if more != [] { SingleTimer(more[0], id); }
  }

  lemma ScheduledDue(s: State, op: Op, id: nat)
    ensures ResolutionDeadlines(Scheduled(s, op), id) == if op.id == id && Does(op, Timing) then [DueOf(op)] else []
  {
    var more := Scheduled(s, op);
    if more != [] { SingleTimer(more[0], id); }
  }

  lemma CallTimes(s: State, op: Op, id: nat)
    ensures ResolutionDeadlines(After(s, op).timers, id)
            == ResolutionDeadlines(s.timers, id)
               + if op.id == id && Does(op, Timing) && Accepted(s, op) then [DueOf(op)] else []
  {
    CallSchedules(s, op);
    if Accepted(s, op) {
      DeadlinesAppend(s.timers, Scheduled(s, op), id);
      ScheduledDue(s, op, id);
    }
  }

  /** In every run the resolution timers of a ticket are those its assigning calls ask for. */
  lemma {:induction false} CallsTellDeadlines(ops: seq<Op>, id: nat)
    ensures ResolutionDeadlines(Run(EMPTY, ops).timers, id) == DueTimes(ops, id)
  {
    if ops != [] {
      var init, last := ops[..|ops| - 1], ops[|ops| - 1];
      assert ops == init + [last];
      CallsTellDeadlines(init, id);
      RunLast(EMPTY, init, last);
      CallTimes(Run(EMPTY, init), last, id);
    }
  }

  /** A ticket with its resolution timers, after this call assigned it last. */
  predicate AssignedBy(t: Ticket, deadlines: seq<Time>, call: Option<Op>) {
    match call
    case None => t.assigneeId == None && t.assignedAt == None && t.slaResolutionDeadline == None && deadlines == []
    case Some(op) =>
      && (op.Claim? || op.AutoAssignJob? || (op.UpdateStatus? && op.to == Assigned && op.assigneeId.Some?))
      && t.assigneeId
         == (if op.Claim? then Some(op.session.userId) else if op.AutoAssignJob? then op.engineerId else op.assigneeId)
      && t.assignedAt == Some(op.now) && t.slaResolutionDeadline == Some(op.now + op.resolutionMinutes)
      && deadlines == [op.now + op.resolutionMinutes]
  }

  lemma ColumnsAssignedBy(t: Ticket, deadlines: seq<Time>, call: Option<Op>)
    requires call.Some? ==> Does(call.value, Timing)
    requires t.assigneeId == (if call.Some? then UserOf(call.value) else None) && t.assignedAt == TimeOf(call)
    requires t.slaResolutionDeadline == (if call.Some? then Some(DueOf(call.value)) else None)
    requires deadlines == (match t.slaResolutionDeadline case None => [] case Some(at) => [at])
    ensures AssignedBy(t, deadlines, call)
  {
  }

  /**
   Without batch reassignments a ticket has one resolution timer, at the time of the last accepted assigning call plus
   that call's minutes, and its assignee and dates are that call's; before any such call it has none of these.
   */
  lemma AssignmentIsTold(ops: seq<Op>, jobs: bool, id: nat)
    requires Ordinary(ops, jobs) && id in Run(EMPTY, ops).tickets
    ensures var s := Run(EMPTY, ops);
            AssignedBy(s.tickets[id], ResolutionDeadlines(s.timers, id), LastCall(ops, id, Timing))
  {
    var s := Run(EMPTY, ops);
    CallsTellTickets(ops, id);
    assert Told(s.tickets[id], ops, id);
    RunInv(ops, jobs);
    InvDated(s, jobs, id);
    NoReassignment(ops, jobs, id);
    LastCallDoes(ops, id, Timing);
    ColumnsAssignedBy(s.tickets[id], ResolutionDeadlines(s.timers, id), LastCall(ops, id, Timing));
  }

  lemma InvDated(s: State, jobs: bool, id: nat)
    requires Inv(s, jobs) && id in s.tickets
    ensures ResolutionDeadlines(s.timers, id)
            == (match s.tickets[id].slaResolutionDeadline case None => [] case Some(at) => [at])
  {
    assert TicketInv(s.tickets[id], Trail(s.history, id), ResolutionDeadlines(s.timers, id), jobs);
  }

  lemma {:induction false} NoReassignment(ops: seq<Op>, jobs: bool, id: nat)
    requires Ordinary(ops, jobs)
    ensures LastCall(ops, id, Assigning) == LastCall(ops, id, Timing)
  {
    if ops != [] { NoReassignment(ops[..|ops| - 1], jobs, id); }
  }

  function PickupDeadlines(timers: seq<Timer>, id: nat): seq<Time> {
    if timers == [] then []
    else
      var last := timers[|timers| - 1];
      PickupDeadlines(timers[..|timers| - 1], id)
      + (if last.PickupTimer? && last.ticketId == id then [last.deadline] else [])
  }

  /** How many checks a ticket has pending that would assign it by itself. */
  function AssignmentChecks(timers: seq<Timer>, id: nat): nat {
    if timers == [] then 0
    else
      AssignmentChecks(timers[..|timers| - 1], id) + if timers[|timers| - 1] == AutoAssignTimer(id) then 1 else 0
  }

  /** How many accepted calls of a run do something to a ticket. */
  function Times(ops: seq<Op>, id: nat, act: Act): nat {
    if ops == [] then 0
    else
      var init, last := ops[..|ops| - 1], ops[|ops| - 1];
      Times(init, id, act) + if last.id == id && Does(last, act) && Accepted(Run(EMPTY, init), last) then 1 else 0
  }

  lemma CallPicks(s: State, op: Op, id: nat)
    requires NewUntimed(s, id)
    ensures var s', own := After(s, op), op.id == id && Accepted(s, op);
            && PickupDeadlines(s'.timers, id)
               == PickupDeadlines(s.timers, id)
                  + (if own && op.Create? && op.teamId.Some? then [op.now + op.pickupMinutes] else [])
            && AssignmentChecks(s'.timers, id)
               == AssignmentChecks(s.timers, id) + (if own && Does(op, MissingPickup) then 1 else 0)
  {
    CallSchedules(s, op);
    if Accepted(s, op) {
      TimersAppend(s.timers, Scheduled(s, op), id);
      ScheduledFor(s, op, id);
    }
  }

  /** A new ticket without a team has no pickup date. */
  lemma {:induction false} NewHasNoPickup(ops: seq<Op>, id: nat)
    ensures NewUntimed(Run(EMPTY, ops), id)
  {
    if ops != [] {
      var init, last := ops[..|ops| - 1], ops[|ops| - 1];
      assert ops == init + [last];
      NewHasNoPickup(init, id);
      RunLast(EMPTY, init, last);
      AcceptedIff(Run(EMPTY, init), last);
      if last.id == id && Accepted(Run(EMPTY, init), last) { CallTells(Run(EMPTY, init), last); }
    }
  }

  /** The pickup date a ticket was created with is the only one that is ever timed. */
  function CreatedPickup(ops: seq<Op>, id: nat): seq<Time> {
    var birth := LastCall(ops, id, Bearing);
    if birth.Some? && birth.value.Create? && birth.value.teamId.Some?
    then [birth.value.now + birth.value.pickupMinutes] else []
  }

  lemma CreatedPickupStep(ops: seq<Op>, op: Op, id: nat)
    requires AllTold(Run(EMPTY, ops), ops, id)
    ensures CreatedPickup(ops + [op], id)
            == CreatedPickup(ops, id)
               + if op.id == id && Accepted(Run(EMPTY, ops), op) && op.Create? && op.teamId.Some?
                 then [op.now + op.pickupMinutes] else []
  {
    LastCallStep(ops, op, id, Bearing);
    var before := CreatedPickup(ops, id);
    assert before + [] == before;
    if op.id == id && Accepted(Run(EMPTY, ops), op) && Does(op, Bearing) {
      assert Untold(ops, id) && LastCall(ops, id, Bearing).None?;
    }
  }

  /**
   In every run a ticket has one pickup timer, at its creation plus the minutes of the creating call, when a call
   created it with a team, and none when it came by web form or email.
   */
  lemma {:induction false} PickupIsTold(ops: seq<Op>, id: nat)
    ensures PickupDeadlines(Run(EMPTY, ops).timers, id) == CreatedPickup(ops, id)
  {
    if ops != [] {
      var init, last := ops[..|ops| - 1], ops[|ops| - 1];
      assert ops == init + [last];
      PickupIsTold(init, id);
      RunLast(EMPTY, init, last);
      NewHasNoPickup(init, id);
      CallPicks(Run(EMPTY, init), last, id);
      CallsTellTickets(init, id);
      CreatedPickupStep(init, last, id);
    }
  }

  /** Each accepted pickup check schedules one automatic assignment. */
  lemma {:induction false} ChecksAreTold(ops: seq<Op>, id: nat)
    ensures AssignmentChecks(Run(EMPTY, ops).timers, id) == Times(ops, id, MissingPickup)
  {
    if ops != [] {
      var init, last := ops[..|ops| - 1], ops[|ops| - 1];
      assert ops == init + [last];
      ChecksAreTold(init, id);
      RunLast(EMPTY, init, last);
      NewHasNoPickup(init, id);
      CallPicks(Run(EMPTY, init), last, id);
    }
  }

  /** What an accepted call writes to the log, given the status its ticket had. */
  function Noted(op: Op, from: Option<Status>): seq<Entry> {
    match op
    case Reassign(_, _, _, _, _) => []
    case PickupSlaJob(_, id, now) => [Entry(id, PickupBreached, None, None, now)]
    case ResolutionSlaJob(_, id, now) =>
      [Entry(id, ResolutionBreached, None, None, now), Entry(id, StatusChanged, from, Some(Escalated), now)]
    case EmailIntake(_, id, _, _, _, now) => [Entry(id, Created, None, Some(TeamAssigned), now)]
    case AutoAssignJob(_, id, _, _, _, now) => [Entry(id, AutoAssigned, from, Some(Assigned), now)]
    case Claim(_, id, _, _, now) => [Entry(id, StatusChanged, from, Some(Assigned), now)]
    case UpdateStatus(_, id, to, _, _, _, now) =>
      [Entry(id, StatusChanged, from, Some(to), now)]
      + if to == Escalated then [Entry(id, EscalatedNote, None, None, now)] else []
    case _ =>
      [Entry(op.id, Created, None, Some(New), op.now)]
      + if op.teamId.Some? then [Entry(op.id, StatusChanged, Some(New), Some(TeamAssigned), op.now)] else []
  }

  function StatusOf(s: State, id: nat): Option<Status> {
    if id in s.tickets then Some(s.tickets[id].status) else None
  }

  function ToldLog(ops: seq<Op>): seq<Entry> {
    if ops == [] then []
    else
      var init, last := ops[..|ops| - 1], ops[|ops| - 1];
      var s := Run(EMPTY, init);
      ToldLog(init) + if Accepted(s, last) then Noted(last, StatusOf(s, last.id)) else []
  }

  lemma CallLogs(s: State, op: Op)
    ensures After(s, op).history
            == s.history + if Accepted(s, op) then Noted(op, StatusOf(s, op.id)) else []
  {
    AcceptedIff(s, op);
    assert s.history + [] == s.history;
    match op
    case UpdateStatus(_, _, _, _, _, _, _) =>
    case Create(_, _, _, _, _, _) =>
    case WebIntake(_, _, _, _, _, _) =>
    case _ =>
  }

  /** In every run the log holds, in order, the entries of the accepted calls and nothing else. */
  lemma {:induction false} CallsTellLog(ops: seq<Op>)
    ensures Run(EMPTY, ops).history == ToldLog(ops)
  {
    if ops != [] {
      var init, last := ops[..|ops| - 1], ops[|ops| - 1];
      assert ops == init + [last];
      CallsTellLog(init);
      RunLast(EMPTY, init, last);
      CallLogs(Run(EMPTY, init), last);
    }
  }

  /** The open tickets of an engineer are those last handed to him and last moved to a status of work in hand. */
  lemma OpenIsTold(ops: seq<Op>, tenantId: nat, userId: nat, id: nat)
    ensures var birth, move := LastCall(ops, id, Bearing), LastCall(ops, id, Moving);
            var assignment := LastCall(ops, id, Assigning);
            id in OpenFor(Run(EMPTY, ops).tickets, tenantId, userId)
            <==> birth.Some? && move.Some? && assignment.Some? && TenantOf(birth.value) == tenantId
                 && UserOf(assignment.value) == Some(userId)
                 && TargetOf(move.value) in {Assigned, InProgress, Escalated}
  {
    CallsTellTickets(ops, id);
  }
}
