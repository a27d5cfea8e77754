/**
 The ticket life cycle: the transition table, the service calls, intakes and
 worker jobs that move a ticket, its audit log and its timers. Every call is
 atomic here. Identifiers are natural numbers and times are minutes.
 */
module Tickets {
  import opened Common

  type Time = nat

  // ---- The transition table -------------------------------------------------------

  /** `Other` is any string that is not a status. */
  datatype Status =
    New | TeamAssigned | Unassigned | Assigned | InProgress | Escalated | Resolved | Closed | Other(name: string)

  function Targets(from: Status): set<Status> {
    match from
    case New => {TeamAssigned}
    case TeamAssigned => {Unassigned}
    case Unassigned => {Assigned}
    case Assigned => {InProgress}
    case InProgress => {Escalated, Resolved}
    case Escalated => {InProgress, Resolved}
    case Resolved => {Closed}
    case Closed => {}
    case Other(_) => {}
  }

  predicate IsTransitionAllowed(from: Status, to: Status) { to in Targets(from) }

  // ---- Records ----------------------------------------------------------------------

  datatype Ticket = Ticket(
    tenantId: nat, status: Status, teamId: Option<nat>, assigneeId: Option<nat>,
    slaPickupDeadline: Option<Time>, slaResolutionDeadline: Option<Time>,
    assignedAt: Option<Time>, resolvedAt: Option<Time>, closedAt: Option<Time>,
    slaPickupBreached: bool, slaResolutionBreached: bool)

  datatype StatusUpdate = StatusUpdate(
    status: Status, teamId: Option<nat>, assigneeId: Option<nat>, slaResolutionDeadline: Option<Time>,
    assignedAt: Option<Time>, resolvedAt: Option<Time>, closedAt: Option<Time>)

  /** The repository's update: a column is written only when the update carries a value. */
  function Merge(t: Ticket, u: StatusUpdate): Ticket {
    t.(status := u.status, teamId := OrElse(u.teamId, t.teamId), assigneeId := OrElse(u.assigneeId, t.assigneeId),
       slaResolutionDeadline := OrElse(u.slaResolutionDeadline, t.slaResolutionDeadline),
       assignedAt := OrElse(u.assignedAt, t.assignedAt), resolvedAt := OrElse(u.resolvedAt, t.resolvedAt),
       closedAt := OrElse(u.closedAt, t.closedAt))
  }

  datatype EventType = Created | StatusChanged | EscalatedNote | AutoAssigned | PickupBreached | ResolutionBreached

  datatype Entry = Entry(ticketId: nat, event: EventType, from: Option<Status>, to: Option<Status>, createdAt: Time)

  datatype Timer =
    | PickupTimer(ticketId: nat, deadline: Time)
    | ResolutionTimer(ticketId: nat, deadline: Time)
    | AutoAssignTimer(ticketId: nat)

  /** The tickets, the audit log, and every timer ever scheduled, oldest first. */
  datatype State = State(tickets: map<nat, Ticket>, history: seq<Entry>, timers: seq<Timer>)

  // ---- Operations -----------------------------------------------------------------------

  datatype Op =
    | Create(session: Session, id: nat, validRequest: bool, teamId: Option<nat>, pickupMinutes: nat, now: Time)
    | UpdateStatus(session: Session, id: nat, to: Status, assigneeId: Option<nat>, teamId: Option<nat>,
        resolutionMinutes: nat, now: Time)
    | Claim(session: Session, id: nat, capacity: int, resolutionMinutes: nat, now: Time)
    | WebIntake(tenantId: nat, id: nat, configured: bool, teamId: Option<nat>, pickupMinutes: nat, now: Time)
    | EmailIntake(tenantId: nat, id: nat, configured: bool, duplicate: bool, triageTeam: nat, now: Time)
    | AutoAssignJob(tenantId: nat, id: nat, enabled: bool, engineerId: Option<nat>, resolutionMinutes: nat, now: Time)
    | PickupSlaJob(tenantId: nat, id: nat, now: Time)
    | ResolutionSlaJob(tenantId: nat, id: nat, now: Time)
    | Reassign(session: Session, id: nat, toEngineer: nat, engineerActive: bool, now: Time)

  /** A lookup sees only the caller's tenant. */
  predicate Visible(s: State, tenantId: nat, id: nat) { id in s.tickets && s.tickets[id].tenantId == tenantId }

  /** One ticket written, with the log entries and timers that go with it. */
  function Put(s: State, id: nat, t: Ticket, entries: seq<Entry>, timers: seq<Timer>): State {
    State(s.tickets[id := t], s.history + entries, s.timers + timers)
  }

  function NewTicket(tenantId: nat, status: Status, teamId: Option<nat>, pickup: Option<Time>): Ticket {
    Ticket(tenantId, status, teamId, None, pickup, None, None, None, None, false, false)
  }

  /** The tickets that count against an engineer's capacity. */
  function OpenFor(tickets: map<nat, Ticket>, tenantId: nat, userId: nat): set<nat> {
    set id | id in tickets && tickets[id].tenantId == tenantId && tickets[id].assigneeId == Some(userId)
             && (tickets[id].status == Assigned || tickets[id].status == InProgress || tickets[id].status == Escalated)
  }

  predicate InQueue(status: Status) { status == Unassigned || status == TeamAssigned }

  predicate BlocksReassign(status: Status) { status == Escalated || status == Resolved || status == Closed }

  function UpdateFor(to: Status, assigneeId: Option<nat>, teamId: Option<nat>, minutes: nat, now: Time): StatusUpdate {
    var assigning := to == Assigned && assigneeId.Some?;
    StatusUpdate(
      to, if to == TeamAssigned then teamId else None, if assigning then assigneeId else None,
      if assigning then Some(now + minutes) else None, if assigning then Some(now) else None,
      if to == Resolved then Some(now) else None, if to == Closed then Some(now) else None)
  }

  function ClaimUpdate(userId: nat, minutes: nat, now: Time): StatusUpdate {
    StatusUpdate(Assigned, None, Some(userId), Some(now + minutes), Some(now), None, None)
  }

  function Changed(id: nat, from: Status, to: Status, now: Time): Entry {
    Entry(id, StatusChanged, Some(from), Some(to), now)
  }

  /** Why a status update is refused, if it is. */
  function UpdateError(t: Ticket, role: Role, to: Status): Option<Error> {
    if !IsTransitionAllowed(t.status, to) then Some(BadRequest)
    else if (to == Escalated || to == Closed) && !IsLead(role) then Some(Forbidden)
    else None
  }

  /** The log entries of an accepted status update. */
  function UpdateEntries(id: nat, from: Status, to: Status, now: Time): seq<Entry> {
    if to == Escalated then [Changed(id, from, to, now), Entry(id, EscalatedNote, None, None, now)]
    else [Changed(id, from, to, now)]
  }

  /** The timers of an accepted status update. */
  function UpdateTimers(id: nat, t: Ticket, u: StatusUpdate): seq<Timer> {
    if u.status == TeamAssigned && t.slaPickupDeadline.Some? then [PickupTimer(id, t.slaPickupDeadline.value)]
    else if u.slaResolutionDeadline.Some? then [ResolutionTimer(id, u.slaResolutionDeadline.value)]
    else []
  }

  /** What a call does: refuse, nothing, or write its one ticket with log entries and timers. */
  datatype Effect = Refuse(error: Error) | Ignore | Write(ticket: Ticket, entries: seq<Entry>, timers: seq<Timer>)

  function CreateEffect(tenantId: nat, id: nat, teamId: Option<nat>, pickupMinutes: nat, timed: bool,
          now: Time): Effect {
    var created := Entry(id, Created, None, Some(New), now);
    if teamId.None? then Write(NewTicket(tenantId, New, None, None), [created], [])
    else
      var deadline := now + pickupMinutes;
      Write(NewTicket(tenantId, TeamAssigned, teamId, Some(deadline)), [created, Changed(id, New, TeamAssigned, now)],
            if timed then [PickupTimer(id, deadline)] else [])
  }

  function UpdateEffect(t: Ticket, role: Role, id: nat, to: Status, assigneeId: Option<nat>, teamId: Option<nat>,
          minutes: nat, now: Time): Effect {
    var error := UpdateError(t, role, to);
    if error.Some? then Refuse(error.value)
    else
      var u := UpdateFor(to, assigneeId, teamId, minutes, now);
      Write(Merge(t, u), UpdateEntries(id, t.status, to, now), UpdateTimers(id, t, u))
  }

  /** A claim and an automatic assignment write the same record, under different log events. */
  function AssignEffect(t: Ticket, id: nat, event: EventType, userId: nat, minutes: nat, now: Time): Effect {
    Write(Merge(t, ClaimUpdate(userId, minutes, now)), [Entry(id, event, Some(t.status), Some(Assigned), now)],
          [ResolutionTimer(id, now + minutes)])
  }

  /** New tickets draw identifiers not in use, so the refusal of a used one is never met. */
  function EffectOf(s: State, op: Op): Effect {
    match op
    case Create(session, id, validRequest, teamId, pickupMinutes, now) =>
      if !validRequest || id in s.tickets then Refuse(BadRequest)
      else CreateEffect(session.tenantId, id, teamId, pickupMinutes, true, now)
    case WebIntake(tenantId, id, configured, teamId, pickupMinutes, now) =>
      if !configured || id in s.tickets then Refuse(BadRequest)
      else CreateEffect(tenantId, id, teamId, pickupMinutes, false, now)
    case EmailIntake(tenantId, id, configured, duplicate, triageTeam, now) =>
      if !configured then Refuse(Unconfigured)
      else if duplicate || id in s.tickets then Ignore
      else
        Write(NewTicket(tenantId, TeamAssigned, Some(triageTeam), None),
            [Entry(id, Created, None, Some(TeamAssigned), now)], [])
    case UpdateStatus(session, id, to, assigneeId, teamId, minutes, now) =>
      if !Visible(s, session.tenantId, id) then Refuse(NotFound)
      else UpdateEffect(s.tickets[id], session.role, id, to, assigneeId, teamId, minutes, now)
    case Claim(session, id, capacity, minutes, now) =>
      if !Visible(s, session.tenantId, id) then Refuse(NotFound)
      else if !InQueue(s.tickets[id].status) then Refuse(BadRequest)
      else if |OpenFor(s.tickets, session.tenantId, session.userId)| >= capacity then Refuse(Forbidden)
      else AssignEffect(s.tickets[id], id, StatusChanged, session.userId, minutes, now)
    case AutoAssignJob(tenantId, id, enabled, engineerId, minutes, now) =>
      if !Visible(s, tenantId, id) || !InQueue(s.tickets[id].status) || s.tickets[id].teamId.None? || !enabled
          || engineerId.None?
      then Ignore
      else AssignEffect(s.tickets[id], id, AutoAssigned, engineerId.value, minutes, now)
    case PickupSlaJob(tenantId, id, now) =>
      if !Visible(s, tenantId, id) || !InQueue(s.tickets[id].status) then Ignore
      else
        Write(s.tickets[id].(slaPickupBreached := true), [Entry(id, PickupBreached, None, None, now)],
              [AutoAssignTimer(id)])
    case ResolutionSlaJob(tenantId, id, now) =>
      if !Visible(s, tenantId, id) || s.tickets[id].status == Resolved || s.tickets[id].status == Closed then Ignore
      else
        Write(s.tickets[id].(status := Escalated, slaResolutionBreached := true),
              [Entry(id, ResolutionBreached, None, None, now), Changed(id, s.tickets[id].status, Escalated, now)], [])
    case Reassign(session, id, toEngineer, engineerActive, now) =>
      if !IsLead(session.role) then Refuse(Forbidden)
      else if !Visible(s, session.tenantId, id) || BlocksReassign(s.tickets[id].status) || !engineerActive then Ignore
      else Write(s.tickets[id].(status := Assigned, assigneeId := Some(toEngineer), assignedAt := Some(now)), [], [])
  }

  /** The state and answer of one call. */
  function Apply(s: State, op: Op): (State, Result<()>) {
    match EffectOf(s, op)
    case Refuse(error) => (s, Err(error))
    case Ignore => (s, Ok(()))
    case Write(ticket, entries, timers) => (Put(s, op.id, ticket, entries, timers), Ok(()))
  }

  /** A scheduled job runs only after it was scheduled; everything else may be called at any time. */
  predicate Enabled(s: State, op: Op) {
    op.ResolutionSlaJob? ==> ResolutionDeadlines(s.timers, op.id) != []
  }

  function Run(s: State, ops: seq<Op>): State
    decreases |ops|
  {
    if ops == [] then s else Run(if Enabled(s, ops[0]) then Apply(s, ops[0]).0 else s, ops[1..])
  }

  const EMPTY: State := State(map[], [], [])

  // ---- The service objects ------------------------------------------------------------------

  class HelpDesk {
    var tickets: map<nat, Ticket>
    var history: seq<Entry>
    var timers: seq<Timer>

    constructor ()
      ensures Snapshot() == EMPTY
    {
      tickets, history, timers := map[], [], [];
    }

    function Snapshot(): State
      reads this
    {
      State(tickets, history, timers)
    }

    method WriteStatus(id: nat, u: StatusUpdate)
      requires id in tickets
      modifies this`tickets
      ensures tickets == old(tickets)[id := Merge(old(tickets)[id], u)]
    {
      var t := tickets[id];
      t := t.(status := u.status);
      if u.assigneeId.Some? { t := t.(assigneeId := u.assigneeId); }
      if u.teamId.Some? { t := t.(teamId := u.teamId); }
      if u.assignedAt.Some? { t := t.(assignedAt := u.assignedAt); }
      if u.resolvedAt.Some? { t := t.(resolvedAt := u.resolvedAt); }
      if u.closedAt.Some? { t := t.(closedAt := u.closedAt); }
      if u.slaResolutionDeadline.Some? { t := t.(slaResolutionDeadline := u.slaResolutionDeadline); }
      tickets := tickets[id := t];
    }

    method UpdateStatus(session: Session, id: nat, to: Status, assigneeId: Option<nat>, teamId: Option<nat>,
            minutes: nat, now: Time)
        returns (r: Result<()>)
      modifies this
      ensures (Snapshot(), r) == Apply(old(Snapshot()), Op.UpdateStatus(session, id, to, assigneeId, teamId, minutes,
              now))
    {
      if id !in tickets || tickets[id].tenantId != session.tenantId { return Err(NotFound); }
      var ticket := tickets[id];
      var from := ticket.status;
      if !IsTransitionAllowed(from, to) { return Err(BadRequest); }
      if to == Escalated && !IsLead(session.role) { return Err(Forbidden); }
      if to == Closed && !IsLead(session.role) { return Err(Forbidden); }

      var update := StatusUpdate(to, None, None, None, None, None, None);
      if to == Assigned && assigneeId.Some? {
        update := update.(assigneeId := assigneeId, assignedAt := Some(now),
            slaResolutionDeadline := Some(now + minutes));
      }
      if to == TeamAssigned && teamId.Some? { update := update.(teamId := teamId); }
      if to == Resolved { update := update.(resolvedAt := Some(now)); }
      if to == Closed { update := update.(closedAt := Some(now)); }
      WriteStatus(id, update);

      history := history + [Changed(id, from, to, now)];
      if to == Escalated { history := history + [Entry(id, EscalatedNote, None, None, now)]; }
      if to == TeamAssigned && ticket.slaPickupDeadline.Some? {
        timers := timers + [PickupTimer(id, ticket.slaPickupDeadline.value)];
      }
      if to == Assigned && update.slaResolutionDeadline.Some? {
        timers := timers + [ResolutionTimer(id, update.slaResolutionDeadline.value)];
      }
      r := Ok(());
      assert update == UpdateFor(to, assigneeId, teamId, minutes, now);
      assert history == old(history) + UpdateEntries(id, from, to, now);
      assert timers == old(timers) + UpdateTimers(id, ticket, update);
    }

    method Create(session: Session, id: nat, validRequest: bool, teamId: Option<nat>, pickupMinutes: nat, now: Time)
        returns (r: Result<()>)
      requires id !in tickets
      modifies this
      ensures (Snapshot(), r) == Apply(old(Snapshot()), Op.Create(session, id, validRequest, teamId, pickupMinutes,
              now))
    {
      if !validRequest { return Err(BadRequest); }
      var deadline: Option<Time> := if teamId.Some? then Some(now + pickupMinutes) else None;
      tickets := tickets[id := NewTicket(session.tenantId, New, teamId, deadline)];
      history := history + [Entry(id, Created, None, Some(New), now)];
      r := Ok(());
      if teamId.Some? {
        r := UpdateStatus(session, id, TeamAssigned, None, teamId, 0, now);
        assert tickets == old(tickets)[id := NewTicket(session.tenantId, TeamAssigned, teamId, deadline)];
        assert history == old(history) + [Entry(id, Created, None, Some(New), now),
            Changed(id, New, TeamAssigned, now)];
      } else {
        assert timers == old(timers) + [];
      }
    }

    method Claim(session: Session, id: nat, capacity: int, minutes: nat, now: Time) returns (r: Result<()>)
      modifies this
      ensures (Snapshot(), r) == Apply(old(Snapshot()), Op.Claim(session, id, capacity, minutes, now))
    {
      if id !in tickets || tickets[id].tenantId != session.tenantId { return Err(NotFound); }
      var status := tickets[id].status;
      if status != Unassigned && status != TeamAssigned { return Err(BadRequest); }
      var openCount := |OpenFor(tickets, session.tenantId, session.userId)|;
      if openCount >= capacity { return Err(Forbidden); }
      var deadline := now + minutes;
      WriteStatus(id, ClaimUpdate(session.userId, minutes, now));
      history := history + [Changed(id, status, Assigned, now)];
      timers := timers + [ResolutionTimer(id, deadline)];
      r := Ok(());
    }

    method CreateFromWebForm(tenantId: nat, id: nat, configured: bool, teamId: Option<nat>, pickupMinutes: nat,
            now: Time)
        returns (r: Result<()>)
      requires id !in tickets
      modifies this
      ensures (Snapshot(), r) == Apply(old(Snapshot()), Op.WebIntake(tenantId, id, configured, teamId, pickupMinutes,
              now))
    {
      if !configured { return Err(BadRequest); }
      var deadline: Option<Time> := if teamId.Some? then Some(now + pickupMinutes) else None;
      tickets := tickets[id := NewTicket(tenantId, New, teamId, deadline)];
      history := history + [Entry(id, Created, None, Some(New), now)];
      if teamId.Some? {
        WriteStatus(id, StatusUpdate(TeamAssigned, teamId, None, None, None, None, None));
        history := history + [Changed(id, New, TeamAssigned, now)];
        assert tickets == old(tickets)[id := NewTicket(tenantId, TeamAssigned, teamId, deadline)];
        assert history == old(history) + [Entry(id, Created, None, Some(New), now),
            Changed(id, New, TeamAssigned, now)];
      }
      r := Ok(());
      assert timers == old(timers) + [];
    }

    method ProcessInboundEmail(tenantId: nat, id: nat, configured: bool, duplicate: bool, teamId: nat, now: Time)
        returns (r: Result<()>)
      requires id !in tickets
      modifies this
      ensures (Snapshot(), r) == Apply(old(Snapshot()), Op.EmailIntake(tenantId, id, configured, duplicate, teamId,
              now))
    {
      if !configured { return Err(Unconfigured); }
      if duplicate { return Ok(()); }
      tickets := tickets[id := NewTicket(tenantId, TeamAssigned, Some(teamId), None)];
      history := history + [Entry(id, Created, None, Some(TeamAssigned), now)];
      r := Ok(());
      assert timers == old(timers) + [];
    }

    method RunPickupSlaCheck(tenantId: nat, id: nat, now: Time)
      modifies this
      ensures Snapshot() == Apply(old(Snapshot()), Op.PickupSlaJob(tenantId, id, now)).0
    {
      if id !in tickets || tickets[id].tenantId != tenantId { return; }
      if tickets[id].status != Unassigned && tickets[id].status != TeamAssigned { return; }
      tickets := tickets[id := tickets[id].(slaPickupBreached := true)];
      history := history + [Entry(id, PickupBreached, None, None, now)];
      timers := timers + [AutoAssignTimer(id)];
    }

    method RunResolutionSlaCheck(tenantId: nat, id: nat, now: Time)
      modifies this
      ensures Snapshot() == Apply(old(Snapshot()), Op.ResolutionSlaJob(tenantId, id, now)).0
    {
      if id !in tickets || tickets[id].tenantId != tenantId { return; }
      var previousStatus := tickets[id].status;
      if previousStatus == Resolved || previousStatus == Closed { return; }
      tickets := tickets[id := tickets[id].(status := Escalated, slaResolutionBreached := true)];
      history := history + [Entry(id, ResolutionBreached, None, None, now)];
      history := history + [Changed(id, previousStatus, Escalated, now)];
    }

    method RunAutoAssign(tenantId: nat, id: nat, enabled: bool, engineers: seq<nat>, workloads: map<nat, nat>,
            capacity: int, minutes: nat, now: Time)
      modifies this
      ensures exists engineer ::
                && LeastLoaded(engineers, workloads, capacity, engineer)
                && Snapshot() == Apply(old(Snapshot()), Op.AutoAssignJob(tenantId, id, enabled, engineer, minutes,
                    now)).0
    {
      var selected := SelectEngineer(engineers, workloads, capacity);
      if id !in tickets || tickets[id].tenantId != tenantId { return; }
      var status := tickets[id].status;
      if status != Unassigned && status != TeamAssigned { return; }
      if tickets[id].teamId.None? || !enabled || selected.None? { return; }
      WriteStatus(id, ClaimUpdate(selected.value, minutes, now));
      history := history + [Entry(id, AutoAssigned, Some(status), Some(Assigned), now)];
      timers := timers + [ResolutionTimer(id, now + minutes)];
    }

    /** One item of a batch: no log entry is written and no timer is scheduled. */
    method ReassignItem(session: Session, id: nat, engineerId: nat, engineerActive: bool, now: Time) returns (ok: bool)
      requires IsLead(session.role)
      modifies this
      ensures Snapshot() == Apply(old(Snapshot()), Op.Reassign(session, id, engineerId, engineerActive, now)).0
      ensures ok == Reassigns(old(Snapshot()), Op.Reassign(session, id, engineerId, engineerActive, now))
    {
      if id !in tickets || tickets[id].tenantId != session.tenantId { return false; }
      var status := tickets[id].status;
      if status == Escalated || status == Resolved || status == Closed { return false; }
      if !engineerActive { return false; }
      tickets := tickets[id := tickets[id].(status := Assigned, assigneeId := Some(engineerId),
          assignedAt := Some(now))];
      ok := true;
    }

    method BatchReassign(session: Session, items: seq<(nat, nat)>, active: set<nat>, now: Time)
            returns (r: Result<seq<bool>>)
      modifies this
      ensures r.Ok? <==> IsLead(session.role) && 1 <= |items| <= 20
      ensures r == Err(Forbidden) <==> !IsLead(session.role)
      ensures r.Err? ==> Snapshot() == old(Snapshot())
      ensures r.Ok? ==> Snapshot() == AfterBatch(old(Snapshot()), session, items, active, now)
      ensures r.Ok? ==> r.value == BatchAnswers(old(Snapshot()), session, items, active, now)
    {
      if !IsLead(session.role) { return Err(Forbidden); }
      if |items| < 1 || |items| > 20 { return Err(BadRequest); }
      var results: seq<bool> := [];
      ghost var before := Snapshot();
      var i := 0;
      while i < |items|
        invariant 0 <= i <= |items|
        invariant Snapshot() == AfterBatch(before, session, items[..i], active, now)
        invariant results == BatchAnswers(before, session, items[..i], active, now)
      {
        assert items[..i + 1][..i] == items[..i];
        var ok := ReassignItem(session, items[i].0, items[i].1, items[i].1 in active, now);
        results := results + [ok];
        i := i + 1;
      }
      assert items[..|items|] == items;
      r := Ok(results);
    }
  }

  /** The state once every item of a batch has been handled in turn. */
  function AfterBatch(s: State, session: Session, items: seq<(nat, nat)>, active: set<nat>, now: Time): State {
    if items == [] then s
    else Apply(AfterBatch(s, session, items[..|items| - 1], active, now),
        ReassignOp(session, items[|items| - 1], active, now)).0
  }

  /** Which items of a batch took effect, each judged in the state its predecessors left. */
  function BatchAnswers(s: State, session: Session, items: seq<(nat, nat)>, active: set<nat>, now: Time): seq<bool> {
    if items == [] then []
    else
      var init := items[..|items| - 1];
      BatchAnswers(s, session, init, active, now)
      + [Reassigns(AfterBatch(s, session, init, active, now), ReassignOp(session, items[|items| - 1], active, now))]
  }

  function ReassignOp(session: Session, item: (nat, nat), active: set<nat>, now: Time): Op {
    Reassign(session, item.0, item.1, item.1 in active, now)
  }

  function Load(workloads: map<nat, nat>, engineer: nat): nat {
    if engineer in workloads then workloads[engineer] else 0
  }

  /** The first engineer of the list with the least load, among those under capacity. */
  predicate LeastLoaded(engineers: seq<nat>, workloads: map<nat, nat>, capacity: int, engineer: Option<nat>) {
    match engineer
    case None => forall e :: e in engineers ==> Load(workloads, e) >= capacity
    case Some(chosen) =>
      exists i :: 0 <= i < |engineers| && engineers[i] == chosen && Load(workloads, chosen) < capacity
                  && (forall j :: 0 <= j < |engineers| ==> Load(workloads, chosen) <= Load(workloads, engineers[j]))
                  && (forall j :: 0 <= j < i ==> Load(workloads, chosen) < Load(workloads, engineers[j]))
  }

  method SelectEngineer(engineers: seq<nat>, workloads: map<nat, nat>, capacity: int) returns (selected: Option<nat>)
    ensures LeastLoaded(engineers, workloads, capacity, selected)
  {
    selected := None;
    var minLoad: Option<nat> := None;
    ghost var at := 0;
    var i := 0;
    while i < |engineers|
      invariant 0 <= i <= |engineers|
      invariant selected.None? <==> minLoad.None?
      invariant selected.None? ==> forall j :: 0 <= j < i ==> Load(workloads, engineers[j]) >= capacity
      invariant selected.Some? ==> 0 <= at < i && engineers[at] == selected.value
                                   && minLoad == Some(Load(workloads, selected.value)) && minLoad.value < capacity
      invariant selected.Some? ==> forall j :: 0 <= j < i ==> minLoad.value <= Load(workloads, engineers[j])
      invariant selected.Some? ==> forall j :: 0 <= j < at ==> minLoad.value < Load(workloads, engineers[j])
    {
      var load := Load(workloads, engineers[i]);
      if (minLoad.None? || load < minLoad.value) && load < capacity {
        minLoad, selected, at := Some(load), Some(engineers[i]), i;
      }
      i := i + 1;
    }
  }

  // ---- Reading the log ---------------------------------------------------------------------------

  datatype Link = Link(from: Option<Status>, to: Status, at: Time)

  function LinkOf(e: Entry, id: nat): seq<Link> {
    if e.ticketId == id && (e.event == Created || e.event == StatusChanged || e.event == AutoAssigned) && e.to.Some?
    then [Link(e.from, e.to.value, e.createdAt)] else []
  }

  /** The status history of one ticket as the log tells it. */
  function Trail(history: seq<Entry>, id: nat): seq<Link> {
    if history == [] then [] else Trail(history[..|history| - 1], id) + LinkOf(history[|history| - 1], id)
  }

  function ResolutionDeadlines(timers: seq<Timer>, id: nat): seq<Time> {
    if timers == [] then []
    else
      var last := timers[|timers| - 1];
      ResolutionDeadlines(timers[..|timers| - 1], id)
      + (if last.ResolutionTimer? && last.ticketId == id then [last.deadline] else [])
  }

  /** A link the code may write: a table edge, the claim shortcut, or the escalation of the resolution job. */
  predicate LegalLink(from: Status, to: Status, jobs: bool) {
    || IsTransitionAllowed(from, to)
    || (from == TeamAssigned && to == Assigned)
    || (jobs && to == Escalated && (from == Assigned || from == InProgress || from == Escalated))
  }

  /** An unbroken history from creation to `status`. */
  predicate Chain(trail: seq<Link>, status: Status, jobs: bool) {
    && trail != []
    && trail[|trail| - 1].to == status
    && if |trail| == 1 then trail[0].from == None && (status == New || status == TeamAssigned)
       else
         var previous := trail[|trail| - 2].to;
         && trail[|trail| - 1].from == Some(previous)
         && LegalLink(previous, status, jobs)
         && Chain(trail[..|trail| - 1], previous, jobs)
  }

  /** When a ticket last entered a status. */
  function LastAt(trail: seq<Link>, status: Status): Option<Time> {
    if trail == [] then None
    else if trail[|trail| - 1].to == status then Some(trail[|trail| - 1].at)
    else LastAt(trail[..|trail| - 1], status)
  }

  predicate Pending(status: Status) { status == New || status == TeamAssigned || status == Unassigned }

  /** The dates of a ticket agree with its status and its log, and its deadline with its one resolution timer. */
  predicate Dated(t: Ticket, trail: seq<Link>, deadlines: seq<Time>) {
    && t.resolvedAt == LastAt(trail, Resolved) && t.closedAt == LastAt(trail, Closed)
    && (t.assignedAt.Some? ==> t.assignedAt == LastAt(trail, Assigned))
    && (t.resolvedAt.Some? <==> t.status == Resolved || t.status == Closed)
    && (t.closedAt.Some? <==> t.status == Closed)
    && (t.assignedAt.Some? <==> t.slaResolutionDeadline.Some?)
    && deadlines == (if t.slaResolutionDeadline.Some? then [t.slaResolutionDeadline.value] else [])
    && (t.assignedAt.Some? ==> !Pending(t.status))
  }

  /** What every ticket satisfies, given its log and its resolution timers. */
  predicate TicketInv(t: Ticket, trail: seq<Link>, deadlines: seq<Time>, jobs: bool) {
    Chain(trail, t.status, jobs) && Dated(t, trail, deadlines)
  }

  predicate Known(s: State) {
    && (forall e :: e in s.history ==> e.ticketId in s.tickets)
    && (forall t :: t in s.timers ==> t.ticketId in s.tickets)
  }

  predicate AllTicketsInv(tickets: map<nat, Ticket>, history: seq<Entry>, timers: seq<Timer>, jobs: bool) {
    forall id :: id in tickets ==> TicketInv(tickets[id], Trail(history, id), ResolutionDeadlines(timers, id), jobs)
  }

  predicate Inv(s: State, jobs: bool) { Known(s) && AllTicketsInv(s.tickets, s.history, s.timers, jobs) }

  predicate IsJob(op: Op) { op.AutoAssignJob? || op.PickupSlaJob? || op.ResolutionSlaJob? }

  lemma {:induction false} TrailAppend(a: seq<Entry>, b: seq<Entry>, id: nat)
    ensures Trail(a + b, id) == Trail(a, id) + Trail(b, id)
  {
    if b == [] {
      assert a + b == a;
    } else {
      var init := b[..|b| - 1];
      assert (a + b)[..|a + b| - 1] == a + init && (a + b)[|a + b| - 1] == b[|b| - 1];
      TrailAppend(a, init, id);
      AppendAssociates(Trail(a, id), Trail(init, id), LinkOf(b[|b| - 1], id));
    }
  }

  lemma {:induction false} DeadlinesAppend(a: seq<Timer>, b: seq<Timer>, id: nat)
    ensures ResolutionDeadlines(a + b, id) == ResolutionDeadlines(a, id) + ResolutionDeadlines(b, id)
  {
    if b == [] {
      assert a + b == a;
    } else {
      var init := b[..|b| - 1];
      assert (a + b)[..|a + b| - 1] == a + init && (a + b)[|a + b| - 1] == b[|b| - 1];
      DeadlinesAppend(a, init, id);
    }
  }

  lemma {:induction false} NothingOf(entries: seq<Entry>, timers: seq<Timer>, id: nat)
    requires forall e :: e in entries ==> e.ticketId != id
    requires forall t :: t in timers ==> t.ticketId != id
    ensures Trail(entries, id) == [] && ResolutionDeadlines(timers, id) == []
    decreases |entries| + |timers|
  {
    if entries != [] {
      assert entries[|entries| - 1] in entries;
      NothingOf(entries[..|entries| - 1], timers, id);
    } else if timers != [] {
      assert timers[|timers| - 1] in timers;
      NothingOf(entries, timers[..|timers| - 1], id);
    }
  }

  /** What is logged and scheduled for other tickets does not show. */
  lemma OthersAppend(history: seq<Entry>, entries: seq<Entry>, scheduled: seq<Timer>, timers: seq<Timer>, id: nat)
    requires forall e :: e in entries ==> e.ticketId != id
    requires forall t :: t in timers ==> t.ticketId != id
    ensures Trail(history + entries, id) == Trail(history, id)
    ensures ResolutionDeadlines(scheduled + timers, id) == ResolutionDeadlines(scheduled, id)
  {
    TrailAppend(history, entries, id);
    DeadlinesAppend(scheduled, timers, id);
    NothingOf(entries, timers, id);
    assert Trail(history, id) + [] == Trail(history, id);
    assert ResolutionDeadlines(scheduled, id) + [] == ResolutionDeadlines(scheduled, id);
  }

  /** A write that suits its own ticket disturbs no other. */
  lemma PutInv(s: State, id: nat, t: Ticket, entries: seq<Entry>, timers: seq<Timer>, jobs: bool)
    requires Inv(s, jobs)
    requires (forall e :: e in entries ==> e.ticketId == id) && (forall m :: m in timers ==> m.ticketId == id)
    requires TicketInv(t, Trail(s.history, id) + Trail(entries, id),
                       ResolutionDeadlines(s.timers, id) + ResolutionDeadlines(timers, id), jobs)
    ensures Inv(Put(s, id, t, entries, timers), jobs)
  {
    var s' := Put(s, id, t, entries, timers);
    forall other | other in s'.tickets
      ensures TicketInv(s'.tickets[other], Trail(s'.history, other), ResolutionDeadlines(s'.timers, other), jobs)
    {
      if other != id {
        OthersAppend(s.history, entries, s.timers, timers, other);
      } else {
        TrailAppend(s.history, entries, id);
        DeadlinesAppend(s.timers, timers, id);
      }
    }
  }

  // ---- Every run keeps the invariant -----------------------------------------------------------------

  lemma OneEntry(e: Entry)
    ensures Trail([e], e.ticketId) == LinkOf(e, e.ticketId)
  {
    assert [e][..0] == [];
  }

  lemma TwoEntries(a: Entry, b: Entry)
    requires a.ticketId == b.ticketId
    ensures Trail([a, b], a.ticketId) == LinkOf(a, a.ticketId) + LinkOf(b, a.ticketId)
  {
    OneEntry(a);
    assert [a, b][..1] == [a];
  }

  lemma OneTimer(m: Timer)
    ensures ResolutionDeadlines([m], m.ticketId) == if m.ResolutionTimer? then [m.deadline] else []
  {
    assert [m][..0] == [];
  }

  lemma ChainExtends(trail: seq<Link>, from: Status, to: Status, at: Time, jobs: bool)
    requires Chain(trail, from, jobs) && LegalLink(from, to, jobs)
    ensures Chain(trail + [Link(Some(from), to, at)], to, jobs)
  {
    var longer := trail + [Link(Some(from), to, at)];
    assert longer[..|longer| - 1] == trail;
  }

  lemma LastAtExtends(trail: seq<Link>, link: Link, status: Status)
    ensures LastAt(trail + [link], status) == if link.to == status then Some(link.at) else LastAt(trail, status)
  {
    var longer := trail + [link];
    assert longer[..|longer| - 1] == trail;
  }

  /**
   How an accepted move changes a ticket: it stamps what the new status asks for, and sets the assignment dates only
   when it assigns.
   */
  predicate Moves(t: Ticket, t': Ticket, to: Status, now: Time, added: seq<Time>) {
    && t'.status == to
    && t'.resolvedAt == (if to == Resolved then Some(now) else t.resolvedAt)
    && t'.closedAt == (if to == Closed then Some(now) else t.closedAt)
    && if added == [] then t'.assignedAt == t.assignedAt && t'.slaResolutionDeadline == t.slaResolutionDeadline
       else to == Assigned && t'.assignedAt == Some(now) && t'.slaResolutionDeadline == Some(added[0]) && |added| == 1
  }

  lemma MoveDated(t: Ticket, t': Ticket, to: Status, now: Time, added: seq<Time>, trail: seq<Link>,
          deadlines: seq<Time>, jobs: bool)
    requires Dated(t, trail, deadlines) && LegalLink(t.status, to, jobs) && Moves(t, t', to, now, added)
    ensures Dated(t', trail + [Link(Some(t.status), to, now)], deadlines + added)
  {
    var link := Link(Some(t.status), to, now);
    LastAtExtends(trail, link, Resolved);
    LastAtExtends(trail, link, Closed);
    LastAtExtends(trail, link, Assigned);
    if added == [] { assert deadlines + added == deadlines; }
  }

  /** A legal move, logged as a link and with its deadline scheduled, keeps a ticket consistent. */
  lemma MoveInv(t: Ticket, t': Ticket, to: Status, now: Time, added: seq<Time>, trail: seq<Link>, deadlines: seq<Time>,
          jobs: bool)
    requires TicketInv(t, trail, deadlines, jobs) && LegalLink(t.status, to, jobs) && Moves(t, t', to, now, added)
    ensures TicketInv(t', trail + [Link(Some(t.status), to, now)], deadlines + added, jobs)
  {
    ChainExtends(trail, t.status, to, now, jobs);
    MoveDated(t, t', to, now, added, trail, deadlines, jobs);
  }

  /** A write suits the ticket it is made to, given that ticket's log and timers so far. */
  predicate Suits(w: Effect, id: nat, trail: seq<Link>, deadlines: seq<Time>, jobs: bool)
    requires w.Write?
  {
    TicketInv(w.ticket, trail + Trail(w.entries, id), deadlines + ResolutionDeadlines(w.timers, id), jobs)
  }

  lemma BirthInv(tenantId: nat, status: Status, teamId: Option<nat>, pickup: Option<Time>, now: Time, jobs: bool)
    requires status == New || status == TeamAssigned
    ensures TicketInv(NewTicket(tenantId, status, teamId, pickup), [Link(None, status, now)], [], jobs)
  {
    var trail := [Link(None, status, now)];
    assert trail[..0] == [];
    assert LastAt(trail, Resolved) == None && LastAt(trail, Closed) == None;
  }

  lemma BirthSuits(w: Effect, id: nat, tenantId: nat, status: Status, teamId: Option<nat>, pickup: Option<Time>,
          now: Time, jobs: bool)
    requires w.Write? && w.ticket == NewTicket(tenantId, status, teamId, pickup)
              && (status == New || status == TeamAssigned)
    requires Trail(w.entries, id) == [Link(None, status, now)] && ResolutionDeadlines(w.timers, id) == []
    ensures Suits(w, id, [], [], jobs)
  {
    BirthInv(tenantId, status, teamId, pickup, now, jobs);
    assert [] + Trail(w.entries, id) == [Link(None, status, now)];
  }

  lemma CreateSuits(tenantId: nat, id: nat, teamId: Option<nat>, pickupMinutes: nat, timed: bool, now: Time, jobs: bool)
    ensures Suits(CreateEffect(tenantId, id, teamId, pickupMinutes, timed, now), id, [], [], jobs)
  {
    var created, routed := Entry(id, Created, None, Some(New), now), Changed(id, New, TeamAssigned, now);
    var deadline := if teamId.None? then None else Some(now + pickupMinutes);
    var t := NewTicket(tenantId, New, teamId, deadline);
    if teamId.None? {
      OneEntry(created);
      BirthSuits(Write(t, [created], []), id, tenantId, New, None, None, now, jobs);
    } else {
      BirthInv(tenantId, New, teamId, deadline, now, jobs);
      TwoEntries(created, routed);
      OneTimer(PickupTimer(id, now + pickupMinutes));
      MoveInv(t, t.(status := TeamAssigned), TeamAssigned, now, [], [Link(None, New, now)], [], jobs);
      assert [] + Trail([created, routed], id) == [Link(None, New, now)] + [Link(Some(New), TeamAssigned, now)];
    }
  }

  lemma EmailSuits(tenantId: nat, id: nat, triageTeam: nat, now: Time, jobs: bool)
    ensures Suits(Write(NewTicket(tenantId, TeamAssigned, Some(triageTeam), None),
                        [Entry(id, Created, None, Some(TeamAssigned), now)], []), id, [], [], jobs)
  {
    OneEntry(Entry(id, Created, None, Some(TeamAssigned), now));
    BirthSuits(Write(NewTicket(tenantId, TeamAssigned, Some(triageTeam), None),
        [Entry(id, Created, None, Some(TeamAssigned), now)], []),
               id, tenantId, TeamAssigned, Some(triageTeam), None, now, jobs);
  }

  lemma UpdateTrail(id: nat, from: Status, to: Status, now: Time)
    ensures Trail(UpdateEntries(id, from, to, now), id) == [Link(Some(from), to, now)]
  {
    OneEntry(Changed(id, from, to, now));
    TwoEntries(Changed(id, from, to, now), Entry(id, EscalatedNote, None, None, now));
  }

  lemma UpdateMoves(t: Ticket, id: nat, to: Status, assigneeId: Option<nat>, teamId: Option<nat>, minutes: nat,
          now: Time)
    ensures var u := UpdateFor(to, assigneeId, teamId, minutes, now);
            Moves(t, Merge(t, u), to, now, ResolutionDeadlines(UpdateTimers(id, t, u), id))
  {
    var timers := UpdateTimers(id, t, UpdateFor(to, assigneeId, teamId, minutes, now));
    if timers != [] { OneTimer(timers[0]); }
  }

  lemma UpdateSuits(t: Ticket, role: Role, id: nat, to: Status, assigneeId: Option<nat>, teamId: Option<nat>,
          minutes: nat, now: Time, trail: seq<Link>, deadlines: seq<Time>, jobs: bool)
    requires TicketInv(t, trail, deadlines, jobs) && UpdateError(t, role, to).None?
    ensures Suits(UpdateEffect(t, role, id, to, assigneeId, teamId, minutes, now), id, trail, deadlines, jobs)
  {
    var u := UpdateFor(to, assigneeId, teamId, minutes, now);
    UpdateTrail(id, t.status, to, now);
    UpdateMoves(t, id, to, assigneeId, teamId, minutes, now);
    MoveInv(t, Merge(t, u), to, now, ResolutionDeadlines(UpdateTimers(id, t, u), id), trail, deadlines, jobs);
  }

  lemma AssignSuits(t: Ticket, id: nat, event: EventType, userId: nat, minutes: nat, now: Time,
                    trail: seq<Link>, deadlines: seq<Time>, jobs: bool)
    requires TicketInv(t, trail, deadlines, jobs) && InQueue(t.status)
              && (event == StatusChanged || event == AutoAssigned)
    ensures Suits(AssignEffect(t, id, event, userId, minutes, now), id, trail, deadlines, jobs)
  {
    OneEntry(Entry(id, event, Some(t.status), Some(Assigned), now));
    OneTimer(ResolutionTimer(id, now + minutes));
    MoveInv(t, Merge(t, ClaimUpdate(userId, minutes, now)), Assigned, now, [now + minutes], trail, deadlines, jobs);
  }

  lemma PickupSuits(t: Ticket, id: nat, now: Time, trail: seq<Link>, deadlines: seq<Time>, jobs: bool)
    requires TicketInv(t, trail, deadlines, jobs)
    ensures Suits(Write(t.(slaPickupBreached := true), [Entry(id, PickupBreached, None, None, now)],
                        [AutoAssignTimer(id)]), id, trail, deadlines, jobs)
  {
    OneEntry(Entry(id, PickupBreached, None, None, now));
    OneTimer(AutoAssignTimer(id));
    assert trail + [] == trail && deadlines + [] == deadlines;
  }

  lemma ChainStatus(trail: seq<Link>, status: Status, jobs: bool)
    requires Chain(trail, status, jobs)
    ensures !status.Other?
  {
  }

  lemma ResolutionSuits(t: Ticket, id: nat, now: Time, trail: seq<Link>, deadlines: seq<Time>)
    requires TicketInv(t, trail, deadlines, true) && deadlines != [] && t.status != Resolved && t.status != Closed
    ensures var entries := [Entry(id, ResolutionBreached, None, None, now), Changed(id, t.status, Escalated, now)];
            var t' := t.(status := Escalated, slaResolutionBreached := true);
            Suits(Write(t', entries, []), id, trail, deadlines, true)
  {
    BreachTrail(id, t.status, now);
    ChainStatus(trail, t.status, true);
    MoveInv(t, t.(status := Escalated, slaResolutionBreached := true), Escalated, now, [], trail, deadlines, true);
  }

  lemma BreachTrail(id: nat, from: Status, now: Time)
    ensures Trail([Entry(id, ResolutionBreached, None, None, now), Changed(id, from, Escalated, now)], id)
            == [Link(Some(from), Escalated, now)]
  {
    TwoEntries(Entry(id, ResolutionBreached, None, None, now), Changed(id, from, Escalated, now));
  }

  function TenantOf(op: Op): nat {
    if op.Create? || op.UpdateStatus? || op.Claim? || op.Reassign? then op.session.tenantId else op.tenantId
  }

  /** Every write logs and schedules for its own ticket only, and never to a foreign or closed one. */
  lemma WritesAreLocal(s: State, op: Op)
    requires EffectOf(s, op).Write?
    ensures var w := EffectOf(s, op);
            && (forall e :: e in w.entries ==> e.ticketId == op.id)
                && (forall m :: m in w.timers ==> m.ticketId == op.id)
            && (op.id in s.tickets ==> s.tickets[op.id].status != Closed && s.tickets[op.id].tenantId == TenantOf(op))
            && w.ticket.tenantId == TenantOf(op)
  {
  }

  predicate IsBirth(op: Op) { op.Create? || op.WebIntake? || op.EmailIntake? }

  /** A new ticket suits an identifier that nothing was logged or scheduled for. */
  lemma BirthStepSuits(s: State, op: Op, jobs: bool)
    requires Inv(s, jobs) && IsBirth(op) && EffectOf(s, op).Write?
    ensures Suits(EffectOf(s, op), op.id, Trail(s.history, op.id), ResolutionDeadlines(s.timers, op.id), jobs)
  {
    NothingOf(s.history, s.timers, op.id);
    match op
    case Create(session, id, _, teamId, minutes, now) =>
      CreateSuits(session.tenantId, id, teamId, minutes, true, now, jobs);
    case WebIntake(tenantId, id, _, teamId, minutes, now) =>
      CreateSuits(tenantId, id, teamId, minutes, false, now, jobs);
    case EmailIntake(tenantId, id, _, _, triageTeam, now) => EmailSuits(tenantId, id, triageTeam, now, jobs);
  }

  lemma JobSuits(t: Ticket, s: State, op: Op, trail: seq<Link>, deadlines: seq<Time>)
    requires op.id in s.tickets && t == s.tickets[op.id] && IsJob(op) && EffectOf(s, op).Write?
    requires TicketInv(t, trail, deadlines, true) && (op.ResolutionSlaJob? ==> deadlines != [])
    ensures Suits(EffectOf(s, op), op.id, trail, deadlines, true)
  {
    match op
    case AutoAssignJob(_, id, _, engineerId, minutes, now) =>
      AssignSuits(t, id, AutoAssigned, engineerId.value, minutes, now, trail, deadlines, true);
    case PickupSlaJob(_, id, now) => PickupSuits(t, id, now, trail, deadlines, true);
    case ResolutionSlaJob(_, id, now) => ResolutionSuits(t, id, now, trail, deadlines);
  }

  /** Every write but a reassignment suits its ticket. */
  lemma StepSuits(s: State, op: Op, jobs: bool)
    requires Inv(s, jobs) && Enabled(s, op) && !op.Reassign? && (IsJob(op) ==> jobs)
    requires EffectOf(s, op).Write?
    ensures Suits(EffectOf(s, op), op.id, Trail(s.history, op.id), ResolutionDeadlines(s.timers, op.id), jobs)
  {
    var trail, deadlines := Trail(s.history, op.id), ResolutionDeadlines(s.timers, op.id);
    if IsBirth(op) {
      BirthStepSuits(s, op, jobs);
    } else {
      var t := s.tickets[op.id];
      assert TicketInv(t, trail, deadlines, jobs);
      match op
      case UpdateStatus(session, id, to, assigneeId, teamId, minutes, now) =>
        UpdateSuits(t, session.role, id, to, assigneeId, teamId, minutes, now, trail, deadlines, jobs);
      case Claim(session, id, _, minutes, now) =>
        AssignSuits(t, id, StatusChanged, session.userId, minutes, now, trail, deadlines, jobs);
      case _ => JobSuits(t, s, op, trail, deadlines);
    }
  }

  /** Every accepted or refused call, other than a batch reassignment, keeps every ticket consistent. */
  lemma StepInv(s: State, op: Op, jobs: bool)
    requires Inv(s, jobs) && Enabled(s, op) && !op.Reassign? && (IsJob(op) ==> jobs)
    ensures Inv(Apply(s, op).0, jobs)
  {
    var w := EffectOf(s, op);
    if w.Write? {
      StepSuits(s, op, jobs);
      WritesAreLocal(s, op);
      PutInv(s, op.id, w.ticket, w.entries, w.timers, jobs);
    }
  }

  /** The calls of a run: no batch reassignment, and jobs only when they are counted in. */
  predicate Ordinary(ops: seq<Op>, jobs: bool) {
    forall i :: 0 <= i < |ops| ==> !ops[i].Reassign? && (IsJob(ops[i]) ==> jobs)
  }

  lemma {:induction false} RunFromInv(s: State, ops: seq<Op>, jobs: bool)
    requires Inv(s, jobs) && Ordinary(ops, jobs)
    ensures Inv(Run(s, ops), jobs)
    decreases |ops|
  {
    if ops != [] {
      if Enabled(s, ops[0]) { StepInv(s, ops[0], jobs); }
      RunFromInv(if Enabled(s, ops[0]) then Apply(s, ops[0]).0 else s, ops[1..], jobs);
    }
  }

  /**
   In every state a run can reach, the log of a ticket is an unbroken chain from its creation to its
   status, every link is a legal one, and its dates and its one resolution timer agree with its status.
   */
  lemma RunInv(ops: seq<Op>, jobs: bool)
    requires Ordinary(ops, jobs)
    ensures Inv(Run(EMPTY, ops), jobs)
  {
    RunFromInv(EMPTY, ops, jobs);
  }

  // ---- How long a history can get ------------------------------------------------------------------------

  function Rank(status: Status): nat {
    match status
    case New => 0
    case TeamAssigned => 1
    case Unassigned => 2
    case Assigned => 3
    case Escalated => 3
    case InProgress => 4
    case Resolved => 5
    case Closed => 6
    case Other(_) => 0
  }

  function Escalations(trail: seq<Link>): nat {
    if trail == [] then 0
    else Escalations(trail[..|trail| - 1]) + if trail[|trail| - 1].to == Escalated then 1 else 0
  }

  lemma {:induction false} ChainBound(trail: seq<Link>, status: Status, jobs: bool)
    requires Chain(trail, status, jobs)
    ensures 0 <= |trail| - 1 <= Rank(status) + 2 * Escalations(trail) && Rank(status) <= 6
    decreases |trail|
  {
    if |trail| > 1 {
      ChainBound(trail[..|trail| - 1], trail[|trail| - 2].to, jobs);
    }
  }

  /** A ticket that was escalated k times has changed status at most 6 + 2k times, jobs included. */
  lemma StatusChangesBounded(ops: seq<Op>, jobs: bool, id: nat)
    requires Ordinary(ops, jobs) && id in Run(EMPTY, ops).tickets
    ensures var trail := Trail(Run(EMPTY, ops).history, id);
            1 <= |trail| <= 7 + 2 * Escalations(trail)
  {
    RunInv(ops, jobs);
    InvChain(Run(EMPTY, ops), jobs, id);
    ChainBound(Trail(Run(EMPTY, ops).history, id), Run(EMPTY, ops).tickets[id].status, jobs);
  }

  lemma InvChain(s: State, jobs: bool, id: nat)
    requires Inv(s, jobs) && id in s.tickets
    ensures Chain(Trail(s.history, id), s.tickets[id].status, jobs)
  {
  }

  /** A legal history of so many links, so many of them escalations. */
  predicate History(trail: seq<Link>, status: Status, length: nat, escalations: nat) {
    Chain(trail, status, false) && |trail| == length && Escalations(trail) == escalations
  }

  lemma Grow(trail: seq<Link>, from: Status, to: Status, length: nat, escalations: nat) returns (longer: seq<Link>)
    requires History(trail, from, length, escalations) && LegalLink(from, to, false)
    ensures History(longer, to, length + 1, escalations + if to == Escalated then 1 else 0)
  {
    longer := trail + [Link(Some(from), to, 0)];
    ChainExtends(trail, from, to, 0, false);
    assert longer[..|longer| - 1] == trail;
  }

  /** The history that goes back and forth between IN_PROGRESS and ESCALATED k times. */
  lemma {:induction false} BusyHistory(k: nat) returns (trail: seq<Link>)
    ensures History(trail, InProgress, 5 + 2 * k, k)
  {
    if k == 0 {
      trail := [Link(None, New, 0)];
      assert trail[..0] == [];
      trail := Grow(trail, New, TeamAssigned, 1, 0);
      trail := Grow(trail, TeamAssigned, Unassigned, 2, 0);
      trail := Grow(trail, Unassigned, Assigned, 3, 0);
      trail := Grow(trail, Assigned, InProgress, 4, 0);
    } else {
      trail := BusyHistory(k - 1);
      trail := Grow(trail, InProgress, Escalated, 3 + 2 * k, k - 1);
      trail := Grow(trail, Escalated, InProgress, 4 + 2 * k, k);
    }
  }

  lemma {:induction false} RunLast(s: State, ops: seq<Op>, op: Op)
    ensures Run(s, ops + [op]) == if Enabled(Run(s, ops), op) then Apply(Run(s, ops), op).0 else Run(s, ops)
    decreases |ops|
  {
    if ops == [] {
      assert [] + [op] == [op] && [op][1..] == [];
    } else {
      assert (ops + [op])[1..] == ops[1..] + [op];
      RunLast(if Enabled(s, ops[0]) then Apply(s, ops[0]).0 else s, ops[1..], op);
    }
  }

  const LEAD: Session := Session(1, 7, TeamLead)

  /** A run without jobs after which ticket 0 of the lead's tenant has this history and this status. */
  predicate Realizes(ops: seq<Op>, trail: seq<Link>, status: Status) {
    && Ordinary(ops, false)
    && var s := Run(EMPTY, ops);
       Visible(s, LEAD.tenantId, 0) && s.tickets[0].status == status && Trail(s.history, 0) == trail
  }

  /** The call that moves ticket 0 on: a status update, or the claim where the table has no such edge. */
  function Move(s: State, from: Status, to: Status, at: Time): Op {
    if IsTransitionAllowed(from, to) then UpdateStatus(LEAD, 0, to, None, None, 0, at)
    else Claim(LEAD, 0, |OpenFor(s.tickets, LEAD.tenantId, LEAD.userId)| + 1, 0, at)
  }

  lemma MoveEffect(s: State, from: Status, to: Status, at: Time)
    requires Visible(s, LEAD.tenantId, 0) && s.tickets[0].status == from && LegalLink(from, to, false)
    ensures var w := EffectOf(s, Move(s, from, to, at));
            && w.Write? && w.ticket.status == to && w.ticket.tenantId == LEAD.tenantId
            && Trail(w.entries, 0) == [Link(Some(from), to, at)]
  {
    UpdateTrail(0, from, to, at);
    OneEntry(Entry(0, StatusChanged, Some(from), Some(Assigned), at));
  }

  lemma RealizeMove(ops: seq<Op>, trail: seq<Link>, from: Status, to: Status, at: Time) returns (longer: seq<Op>)
    requires Realizes(ops, trail, from) && LegalLink(from, to, false)
    ensures Realizes(longer, trail + [Link(Some(from), to, at)], to)
  {
    var s := Run(EMPTY, ops);
    var op := Move(s, from, to, at);
    longer := ops + [op];
    RunLast(EMPTY, ops, op);
    MoveEffect(s, from, to, at);
    TrailAppend(s.history, EffectOf(s, op).entries, 0);
  }

  lemma RealizeBirth(status: Status, at: Time) returns (ops: seq<Op>)
    requires status == New || status == TeamAssigned
    ensures Realizes(ops, [Link(None, status, at)], status)
  {
    var op :=
      if status == New then Create(LEAD, 0, true, None, 0, at) else EmailIntake(LEAD.tenantId, 0, true, false, 3, at);
    ops := [op];
    assert [op][1..] == [];
    assert Run(EMPTY, ops) == Apply(EMPTY, op).0;
    OneEntry(Entry(0, Created, None, Some(status), at));
    assert [] + [Entry(0, Created, None, Some(status), at)] == [Entry(0, Created, None, Some(status), at)];
  }

  /** The chain condition is exact: every legal history is that of some run of calls. */
  lemma {:induction false} LegalHistoriesHappen(trail: seq<Link>, status: Status) returns (ops: seq<Op>)
    requires Chain(trail, status, false)
    ensures Realizes(ops, trail, status)
    decreases |trail|
  {
    var last := trail[|trail| - 1];
    if |trail| == 1 {
      assert trail == [Link(None, status, last.at)];
      ops := RealizeBirth(status, last.at);
    } else {
      var init, previous := trail[..|trail| - 1], trail[|trail| - 2].to;
      ops := LegalHistoriesHappen(init, previous);
      assert trail == init + [Link(Some(previous), status, last.at)];
      ops := RealizeMove(ops, init, previous, status, last.at);
    }
  }

  /** The bound is met: for every k some run closes a ticket after k escalations and exactly 6 + 2k changes. */
  lemma BoundIsTight(k: nat) returns (ops: seq<Op>, trail: seq<Link>)
    ensures Realizes(ops, trail, Closed) && Escalations(trail) == k && |trail| == 7 + 2 * k
  {
    trail := BusyHistory(k);
    trail := Grow(trail, InProgress, Resolved, 5 + 2 * k, k);
    trail := Grow(trail, Resolved, Closed, 6 + 2 * k, k);
    ops := LegalHistoriesHappen(trail, Closed);
  }

  // ---- What holds of every call, batch reassignments included ---------------------------------------------

  /** A call touches one ticket, and only an open one of its caller's tenant. */
  lemma OthersUntouched(s: State, op: Op, other: nat)
    requires other in s.tickets
    requires other != op.id || s.tickets[other].status == Closed || s.tickets[other].tenantId != TenantOf(op)
    ensures var s' := Apply(s, op).0;
            && other in s'.tickets && s'.tickets[other] == s.tickets[other]
            && Trail(s'.history, other) == Trail(s.history, other)
            && ResolutionDeadlines(s'.timers, other) == ResolutionDeadlines(s.timers, other)
  {
    var w := EffectOf(s, op);
    if w.Write? {
      WritesAreLocal(s, op);
      OthersAppend(s.history, w.entries, s.timers, w.timers, other);
    }
  }

  /** Nothing reopens a closed ticket: not a call, not a job, not a batch reassignment. */
  lemma {:induction false} ClosedIsFinal(s: State, ops: seq<Op>, id: nat)
    requires id in s.tickets && s.tickets[id].status == Closed
    ensures var s' := Run(s, ops);
            && id in s'.tickets && s'.tickets[id] == s.tickets[id]
            && Trail(s'.history, id) == Trail(s.history, id)
            && ResolutionDeadlines(s'.timers, id) == ResolutionDeadlines(s.timers, id)
    decreases |ops|
  {
    if ops != [] {
      if Enabled(s, ops[0]) { OthersUntouched(s, ops[0], id); }
      ClosedIsFinal(if Enabled(s, ops[0]) then Apply(s, ops[0]).0 else s, ops[1..], id);
    }
  }

  predicate StampedTicket(t: Ticket) {
    && (t.resolvedAt.Some? <==> t.status == Resolved || t.status == Closed)
    && (t.closedAt.Some? <==> t.status == Closed)
  }

  predicate Stamped(s: State) { forall id :: id in s.tickets ==> StampedTicket(s.tickets[id]) }

  lemma WritesStamped(s: State, op: Op)
    requires EffectOf(s, op).Write? && (op.id in s.tickets ==> StampedTicket(s.tickets[op.id]))
    ensures StampedTicket(EffectOf(s, op).ticket)
  {
  }

  lemma StampsStep(s: State, op: Op)
    requires Stamped(s)
    ensures Stamped(Apply(s, op).0)
  {
    if EffectOf(s, op).Write? { WritesStamped(s, op); }
  }

  /** The resolved and closed dates tell the status in every run whatsoever. */
  lemma {:induction false} StampsTellStatus(s: State, ops: seq<Op>)
    requires Stamped(s)
    ensures Stamped(Run(s, ops))
    decreases |ops|
  {
    if ops != [] {
      StampsStep(s, ops[0]);
      StampsTellStatus(if Enabled(s, ops[0]) then Apply(s, ops[0]).0 else s, ops[1..]);
    }
  }

  /** The log says that a timer of the ticket found it overdue. */
  predicate Logged(history: seq<Entry>, id: nat, event: EventType) {
    exists k :: 0 <= k < |history| && history[k].ticketId == id && history[k].event == event
  }

  predicate BreachesLogged(s: State) {
    && Known(s)
    && forall id :: id in s.tickets ==>
         && (s.tickets[id].slaPickupBreached <==> Logged(s.history, id, PickupBreached))
         && (s.tickets[id].slaResolutionBreached <==> Logged(s.history, id, ResolutionBreached))
  }

  lemma LoggedAppend(a: seq<Entry>, b: seq<Entry>, id: nat, event: EventType)
    ensures Logged(a + b, id, event) <==> Logged(a, id, event) || Logged(b, id, event)
  {
    if Logged(a, id, event) {
      var k :| 0 <= k < |a| && a[k].ticketId == id && a[k].event == event;
      assert (a + b)[k] == a[k];
    }
    if Logged(b, id, event) {
      var k :| 0 <= k < |b| && b[k].ticketId == id && b[k].event == event;
      assert (a + b)[|a| + k] == b[k];
    }
  }

  /** A write sets a flag exactly when it logs the breach, and none on a new ticket. */
  lemma WritesBreach(s: State, op: Op)
    requires EffectOf(s, op).Write?
    ensures var w := EffectOf(s, op);
            var was := if op.id in s.tickets then s.tickets[op.id] else w.ticket.(slaPickupBreached := false,
                slaResolutionBreached := false);
            && (w.ticket.slaPickupBreached <==> was.slaPickupBreached || Logged(w.entries, op.id, PickupBreached))
            && (w.ticket.slaResolutionBreached
                <==> was.slaResolutionBreached || Logged(w.entries, op.id, ResolutionBreached))
  {
    var w := EffectOf(s, op);
    if op.PickupSlaJob? { assert w.entries[0].event == PickupBreached; }
    if op.ResolutionSlaJob? { assert w.entries[0].event == ResolutionBreached; }
  }

  lemma BreachStep(s: State, op: Op)
    requires BreachesLogged(s)
    ensures BreachesLogged(Apply(s, op).0)
  {
    var w, s' := EffectOf(s, op), Apply(s, op).0;
    if w.Write? {
      WritesAreLocal(s, op);
      WritesBreach(s, op);
      forall id | id in s'.tickets
        ensures s'.tickets[id].slaPickupBreached <==> Logged(s'.history, id, PickupBreached)
        ensures s'.tickets[id].slaResolutionBreached <==> Logged(s'.history, id, ResolutionBreached)
      {
        LoggedAppend(s.history, w.entries, id, PickupBreached);
        LoggedAppend(s.history, w.entries, id, ResolutionBreached);
      }
    }
  }

  /** In every run the breach flags of a ticket say exactly what its log says. */
  lemma {:induction false} BreachFlagsTellLog(s: State, ops: seq<Op>)
    requires BreachesLogged(s)
    ensures BreachesLogged(Run(s, ops))
    decreases |ops|
  {
    if ops != [] {
      BreachStep(s, ops[0]);
      BreachFlagsTellLog(if Enabled(s, ops[0]) then Apply(s, ops[0]).0 else s, ops[1..]);
    }
  }

  /** A successful claim leaves the claimant at or under capacity, with exactly one more open ticket. */
  lemma ClaimWithinCapacity(s: State, op: Op)
    requires op.Claim? && Apply(s, op).1.Ok?
    ensures var s' := Apply(s, op).0;
            && OpenFor(s'.tickets, op.session.tenantId, op.session.userId)
               == OpenFor(s.tickets, op.session.tenantId, op.session.userId) + {op.id}
            && |OpenFor(s'.tickets, op.session.tenantId, op.session.userId)| <= op.capacity
            && |OpenFor(s'.tickets, op.session.tenantId, op.session.userId)|
               == |OpenFor(s.tickets, op.session.tenantId, op.session.userId)| + 1
  {
    var open := OpenFor(s.tickets, op.session.tenantId, op.session.userId);
    assert op.id !in open;
    assert OpenFor(Apply(s, op).0.tickets, op.session.tenantId, op.session.userId) == open + {op.id};
  }

  // ---- Batch reassignment ------------------------------------------------------------------------------------

  predicate Reassigns(s: State, op: Op) {
    && op.Reassign? && IsLead(op.session.role) && Visible(s, op.session.tenantId, op.id)
    && !BlocksReassign(s.tickets[op.id].status) && op.engineerActive
  }

  /** The ticket as a reassignment leaves it. */
  function Handed(t: Ticket, engineer: nat, now: Time): Ticket {
    t.(status := Assigned, assigneeId := Some(engineer), assignedAt := Some(now))
  }

  lemma ItemHandsOver(s: State, session: Session, item: (nat, nat), active: set<nat>, now: Time, id: nat)
    requires id in s.tickets && IsLead(session.role)
    ensures var s', t := Apply(s, ReassignOp(session, item, active, now)).0, s.tickets[id];
            && s'.tickets.Keys == s.tickets.Keys && s'.history == s.history && s'.timers == s.timers
            && (s'.tickets[id] == t
                || (id == item.0 && item.1 in active && t.tenantId == session.tenantId && !BlocksReassign(t.status)
                    && s'.tickets[id] == Handed(t, item.1, now)))
  {
  }

  /** Untouched, or handed to some active engineer the batch names for it. */
  predicate HandedOrSame(t: Ticket, t': Ticket, id: nat, items: seq<(nat, nat)>, active: set<nat>, now: Time) {
    || t' == t
    || exists k :: 0 <= k < |items| && items[k].0 == id && items[k].1 in active && t' == Handed(t, items[k].1, now)
  }

  /**
   A batch logs and schedules nothing, leaves blocked and foreign tickets alone, and hands others only to active
   engineers it names.
   */
  lemma {:induction false} BatchHandsOver(s: State, session: Session, items: seq<(nat, nat)>, active: set<nat>,
          now: Time, id: nat)
    requires id in s.tickets && IsLead(session.role)
    ensures var s', t := AfterBatch(s, session, items, active, now), s.tickets[id];
            && s'.tickets.Keys == s.tickets.Keys && s'.history == s.history && s'.timers == s.timers
            && (BlocksReassign(t.status) || t.tenantId != session.tenantId ==> s'.tickets[id] == t)
            && HandedOrSame(t, s'.tickets[id], id, items, active, now)
  {
    if items != [] {
      var n := |items| - 1;
      var init := items[..n];
      BatchHandsOver(s, session, init, active, now, id);
      var mid := AfterBatch(s, session, init, active, now);
      ItemHandsOver(mid, session, items[n], active, now, id);
      HandedStep(s.tickets[id], mid.tickets[id], AfterBatch(s, session, items, active, now).tickets[id], id, items,
          active, now);
    }
  }

  lemma HandedStep(t: Ticket, t1: Ticket, t2: Ticket, id: nat, items: seq<(nat, nat)>, active: set<nat>, now: Time)
    requires items != [] && HandedOrSame(t, t1, id, items[..|items| - 1], active, now)
    requires var last := items[|items| - 1];
             t2 == t1 || (id == last.0 && last.1 in active && t2 == Handed(t1, last.1, now))
    ensures HandedOrSame(t, t2, id, items, active, now)
  {
    var n := |items| - 1;
    if t1 != t {
      var k :| 0 <= k < n && items[..n][k].0 == id && items[..n][k].1 in active
          && t1 == Handed(t, items[..n][k].1, now);
      assert items[k] == items[..n][k];
    }
    if t2 != t1 {
      assert t2 == Handed(t, items[n].1, now);
    }
  }

  lemma ChainIsExact(trail: seq<Link>, a: Status, b: Status, jobs: bool)
    requires Chain(trail, a, jobs)
    ensures Chain(trail, b, jobs) <==> a == b
  {
  }

  /** With nothing logged and nothing scheduled, the invariant rests on the ticket alone. */
  lemma SilentWriteInvIff(s: State, id: nat, t: Ticket, jobs: bool)
    requires Inv(s, jobs)
    ensures Inv(Put(s, id, t, [], []), jobs) <==> TicketInv(t, Trail(s.history, id), ResolutionDeadlines(s.timers, id),
            jobs)
  {
    var s' := Put(s, id, t, [], []);
    assert s'.history == s.history && s'.timers == s.timers && s'.tickets[id] == t;
    if TicketInv(t, Trail(s.history, id), ResolutionDeadlines(s.timers, id), jobs) {
      assert Trail(s.history, id) + [] == Trail(s.history, id);
      assert ResolutionDeadlines(s.timers, id) + [] == ResolutionDeadlines(s.timers, id);
      PutInv(s, id, t, [], [], jobs);
    }
  }

  lemma ReassignedTicketIff(t: Ticket, engineer: nat, trail: seq<Link>, deadlines: seq<Time>, now: Time, jobs: bool)
    requires TicketInv(t, trail, deadlines, jobs) && !BlocksReassign(t.status)
    ensures var t' := Handed(t, engineer, now);
            && (Chain(trail, t'.status, jobs) <==> t.status == Assigned)
            && ((t'.assignedAt.Some? <==> t'.slaResolutionDeadline.Some?) <==> t.slaResolutionDeadline.Some?)
            && (TicketInv(t', trail, deadlines, jobs)
                <==> t.status == Assigned && t.slaResolutionDeadline.Some? && t.assignedAt == Some(now))
  {
    ChainIsExact(trail, t.status, Assigned, jobs);
  }

  lemma ReassignWrites(s: State, op: Op)
    requires Reassigns(s, op)
    ensures Apply(s, op).0 == Put(s, op.id, Handed(s.tickets[op.id], op.toEngineer, op.now), [], [])
  {
  }

  /**
   Reassignment writes the status and the assignment date but no log entry, no deadline and no timer.
   The log still ends at the status exactly when the ticket was already ASSIGNED; the assignment date
   still comes with a deadline exactly when there was one; and everything stays consistent only if,
   besides, the log happens to show the assignment at this very moment.
   */
  lemma ReassignKeepsInvIff(s: State, op: Op, jobs: bool)
    requires Inv(s, jobs) && Reassigns(s, op)
    ensures var t, t' := s.tickets[op.id], Apply(s, op).0.tickets[op.id];
            && (Chain(Trail(s.history, op.id), t'.status, jobs) <==> t.status == Assigned)
            && ((t'.assignedAt.Some? <==> t'.slaResolutionDeadline.Some?) <==> t.slaResolutionDeadline.Some?)
            && (Inv(Apply(s, op).0, jobs)
                <==> t.status == Assigned && t.slaResolutionDeadline.Some? && t.assignedAt == Some(op.now))
  {
    var t := s.tickets[op.id];
    ReassignWrites(s, op);
    SilentWriteInvIff(s, op.id, Handed(t, op.toEngineer, op.now), jobs);
    ReassignedTicketIff(t, op.toEngineer, Trail(s.history, op.id), ResolutionDeadlines(s.timers, op.id), op.now, jobs);
  }

  /** Some item of the batch reassigns this ticket as it stands before the batch. */
  predicate Taken(s: State, session: Session, items: seq<(nat, nat)>, active: set<nat>, now: Time, id: nat) {
    exists k :: 0 <= k < |items| && items[k].0 == id && Reassigns(s, ReassignOp(session, items[k], active, now))
  }

  predicate HandedOver(t: Ticket, t': Ticket, now: Time) {
    t'.assigneeId.Some? && t' == Handed(t, t'.assigneeId.value, now)
  }

  lemma TakenStep(s: State, session: Session, items: seq<(nat, nat)>, active: set<nat>, now: Time, id: nat)
    requires items != []
    ensures Taken(s, session, items, active, now, id)
            <==> Taken(s, session, items[..|items| - 1], active, now, id)
                 || (items[|items| - 1].0 == id
                     && Reassigns(s, ReassignOp(session, items[|items| - 1], active, now)))
  {
    var init := items[..|items| - 1];
    if Taken(s, session, init, active, now, id) {
      var k :| 0 <= k < |init| && init[k].0 == id && Reassigns(s, ReassignOp(session, init[k], active, now));
      assert items[k] == init[k];
    }
    if Taken(s, session, items, active, now, id) {
      var k :| 0 <= k < |items| && items[k].0 == id && Reassigns(s, ReassignOp(session, items[k], active, now));
      if k < |init| { assert init[k] == items[k]; }
    }
  }

  /** A batch hands over exactly the tickets it takes. */
  lemma {:induction false} BatchTakes(s: State, session: Session, items: seq<(nat, nat)>, active: set<nat>, now: Time,
      id: nat)
    requires id in s.tickets && IsLead(session.role)
    ensures var s', t := AfterBatch(s, session, items, active, now), s.tickets[id];
            && id in s'.tickets
            && if Taken(s, session, items, active, now, id) then HandedOver(t, s'.tickets[id], now)
               else s'.tickets[id] == t
  {
    if items != [] {
      var init := items[..|items| - 1];
      BatchTakes(s, session, init, active, now, id);
      TakenStep(s, session, items, active, now, id);
      ItemTakes(AfterBatch(s, session, init, active, now), session, items[|items| - 1], active, now, id);
      if Taken(s, session, init, active, now, id) {
        TakenIsOpen(s, session, init, active, now, id);
      }
    }
  }

  lemma ItemTakes(s: State, session: Session, item: (nat, nat), active: set<nat>, now: Time, id: nat)
    requires id in s.tickets && IsLead(session.role)
    ensures var op := ReassignOp(session, item, active, now);
            && id in Apply(s, op).0.tickets
            && if item.0 == id && Reassigns(s, op) then Apply(s, op).0.tickets[id] == Handed(s.tickets[id], item.1, now)
               else Apply(s, op).0.tickets[id] == s.tickets[id]
  {
  }

  lemma TakenIsOpen(s: State, session: Session, items: seq<(nat, nat)>, active: set<nat>, now: Time, id: nat)
    requires Taken(s, session, items, active, now, id)
    ensures Visible(s, session.tenantId, id) && !BlocksReassign(s.tickets[id].status)
  {
  }

  /** What the reassignment SQL leaves consistent: a ticket assigned, with a deadline, at this very moment. */
  predicate JustAssigned(t: Ticket, now: Time) {
    t.status == Assigned && t.slaResolutionDeadline.Some? && t.assignedAt == Some(now)
  }

  lemma BatchTicketInvIff(s: State, session: Session, items: seq<(nat, nat)>, active: set<nat>, now: Time, id: nat,
      jobs: bool)
    requires Inv(s, jobs) && IsLead(session.role) && id in s.tickets
    ensures var s' := AfterBatch(s, session, items, active, now);
            && id in s'.tickets
            && (TicketInv(s'.tickets[id], Trail(s.history, id), ResolutionDeadlines(s.timers, id), jobs)
                <==> (Taken(s, session, items, active, now, id) ==> JustAssigned(s.tickets[id], now)))
  {
    BatchTakes(s, session, items, active, now, id);
    if Taken(s, session, items, active, now, id) {
      TakenIsOpen(s, session, items, active, now, id);
      ReassignedTicketIff(s.tickets[id], AfterBatch(s, session, items, active, now).tickets[id].assigneeId.value,
        Trail(s.history, id), ResolutionDeadlines(s.timers, id), now, jobs);
    }
  }

  lemma {:induction false} BatchKeepsLog(s: State, session: Session, items: seq<(nat, nat)>, active: set<nat>,
      now: Time)
    requires IsLead(session.role)
    ensures var s' := AfterBatch(s, session, items, active, now);
            s'.tickets.Keys == s.tickets.Keys && s'.history == s.history && s'.timers == s.timers
  {
    if items != [] {
      BatchKeepsLog(s, session, items[..|items| - 1], active, now);
    }
  }

  /** Every ticket the batch takes was assigned at this very moment. */
  predicate TakesJustAssigned(s: State, session: Session, items: seq<(nat, nat)>, active: set<nat>, now: Time) {
    forall id :: id in s.tickets && Taken(s, session, items, active, now, id) ==> JustAssigned(s.tickets[id], now)
  }

  lemma BatchTicketsInvIff(s: State, session: Session, items: seq<(nat, nat)>, active: set<nat>, now: Time, jobs: bool)
    requires Inv(s, jobs) && IsLead(session.role)
    ensures AllTicketsInv(AfterBatch(s, session, items, active, now).tickets, s.history, s.timers, jobs)
            <==> TakesJustAssigned(s, session, items, active, now)
  {
    var tickets := AfterBatch(s, session, items, active, now).tickets;
    BatchKeepsLog(s, session, items, active, now);
    if TakesJustAssigned(s, session, items, active, now) {
      forall id | id in tickets
        ensures TicketInv(tickets[id], Trail(s.history, id), ResolutionDeadlines(s.timers, id), jobs)
      {
        BatchTicketInvIff(s, session, items, active, now, id, jobs);
      }
    } else {
      var id :| id in s.tickets && Taken(s, session, items, active, now, id) && !JustAssigned(s.tickets[id], now);
      BatchTicketInvIff(s, session, items, active, now, id, jobs);
    }
  }

  /** A whole batch keeps the invariant exactly when every ticket it takes was assigned at this very moment. */
  lemma BatchKeepsInvIff(s: State, session: Session, items: seq<(nat, nat)>, active: set<nat>, now: Time, jobs: bool)
    requires Inv(s, jobs) && IsLead(session.role)
    ensures Inv(AfterBatch(s, session, items, active, now), jobs)
            <==> TakesJustAssigned(s, session, items, active, now)
  {
    BatchKeepsLog(s, session, items, active, now);
    BatchTicketsInvIff(s, session, items, active, now, jobs);
    SameLogKnown(s, AfterBatch(s, session, items, active, now));
  }

  lemma SameLogKnown(s: State, s': State)
    requires Known(s) && s'.tickets.Keys == s.tickets.Keys && s'.history == s.history && s'.timers == s.timers
    ensures Known(s')
  {
    assert forall id :: id in s.tickets ==> id in s'.tickets;
  }

  lemma RunTwo(a: Op, b: Op)
    requires !a.ResolutionSlaJob? && !b.ResolutionSlaJob?
    ensures Run(EMPTY, [a, b]) == Apply(Apply(EMPTY, a).0, b).0
  {
    var s := Apply(EMPTY, a).0;
    assert [a, b][1..] == [b] && [b][1..] == [];
    assert Run(s, [b]) == Run(Apply(s, b).0, []);
  }

  /** A ticket of tenant 1, created without a team and then reassigned to engineer 9 by a lead. */
  const REASSIGNED_NEW: State :=
    State(map[0 := Ticket(1, Assigned, None, Some(9), None, None, Some(5), None, None, false, false)],
        [Entry(0, Created, None, Some(New), 0)], [])

  lemma ReassignedNewIsReached()
    ensures Run(EMPTY, [Create(Session(1, 7, TeamLead), 0, true, None, 30, 0),
            Reassign(Session(1, 7, TeamLead), 0, 9, true, 5)])
            == REASSIGNED_NEW
  {
    var lead := Session(1, 7, TeamLead);
    RunTwo(Create(lead, 0, true, None, 30, 0), Reassign(lead, 0, 9, true, 5));
    var first := Apply(EMPTY, Create(lead, 0, true, None, 30, 0)).0;
    assert first == State(map[0 := NewTicket(1, New, None, None)], [Entry(0, Created, None, Some(New), 0)], []);
  }

  /** The run above ends ASSIGNED, while its log still says NEW and no timer runs. */
  lemma ReassignedNewBreaksInv()
    ensures Trail(REASSIGNED_NEW.history, 0) == [Link(None, New, 0)]
            && ResolutionDeadlines(REASSIGNED_NEW.timers, 0) == []
    ensures !Inv(REASSIGNED_NEW, true)
  {
    OneEntry(Entry(0, Created, None, Some(New), 0));
    assert !TicketInv(REASSIGNED_NEW.tickets[0], [Link(None, New, 0)], [], true);
    assert 0 in REASSIGNED_NEW.tickets;
  }
}
