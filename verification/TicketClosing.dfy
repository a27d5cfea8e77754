/**
 Closing a ticket: the status update of the ticket service together with the evaluation of the analyses that
 follows it. The update is stored before the evaluation, and what the evaluation throws is not caught.
 */
module TicketClosing {
  import opened Common
  import Rca
  import RcaCalls
  import Tickets

  /** What the evaluation reads besides the ticket: the rule, the priority and title, the tenant's users. */
  datatype Context = Context(rcaId: nat, autoP1: bool, priority: int, title: string, users: seq<Rca.User>)

  datatype State = State(desk: Tickets.State, analyses: Rca.State)

  datatype Event = TicketCall(op: Tickets.Op, context: Context) | AnalysisCall(change: Rca.Op)

  const START: State := State(Tickets.EMPTY, Rca.EMPTY)

  predicate Closes(op: Tickets.Op) { op.UpdateStatus? && op.to == Tickets.Closed }

  /** The evaluation that closing a ticket asks for. */
  function EvaluateOp(desk: Tickets.State, op: Tickets.Op, context: Context): Rca.Op
    requires Closes(op) && op.id in desk.tickets
  {
    Rca.Evaluate(op.session.tenantId, context.rcaId, op.id, context.autoP1, context.priority,
      desk.tickets[op.id].assigneeId, context.title, op.session.userId, context.users)
  }

  /** The state and answer of a ticket call. */
  function Call(s: State, op: Tickets.Op, context: Context): (State, Result<()>) {
    var (desk, answer) := Tickets.Apply(s.desk, op);
    if answer.Err? || !Closes(op) then (s.(desk := desk), answer)
    else
      var (analyses, evaluated) := Rca.Apply(s.analyses, EvaluateOp(s.desk, op, context));
      (State(desk, analyses), evaluated)
  }

  /** Scheduled jobs run only once scheduled, and new analyses draw identifiers not in use. */
  predicate Enabled(s: State, e: Event) {
    match e
    case TicketCall(op, context) => Tickets.Enabled(s.desk, op) && context.rcaId !in s.analyses.records
    case AnalysisCall(op) => !op.Evaluate?
  }

  function Step(s: State, e: Event): State {
    if !Enabled(s, e) then s
    else
      match e
      case TicketCall(op, context) => Call(s, op, context).0
      case AnalysisCall(op) => s.(analyses := Rca.Step(s.analyses, op))
  }

  function Run(s: State, events: seq<Event>): State {
    if events == [] then s else Step(Run(s, events[..|events| - 1]), events[|events| - 1])
  }

  class TicketService {
    const desk: Tickets.HelpDesk
    const rca: Rca.RcaService

    constructor (desk: Tickets.HelpDesk, rca: Rca.RcaService)
      ensures this.desk == desk && this.rca == rca
    {
      this.desk, this.rca := desk, rca;
    }

    function Snapshot(): State
      reads desk, rca
    {
      State(desk.Snapshot(), rca.Snapshot())
    }

    method UpdateStatus(session: Session, id: nat, to: Tickets.Status, assigneeId: Option<nat>, teamId: Option<nat>,
        minutes: nat, now: Tickets.Time, context: Context)
        returns (r: Result<()>)
      requires context.rcaId !in rca.records
      modifies desk, rca
      ensures (Snapshot(), r)
              == Call(old(Snapshot()), Tickets.UpdateStatus(session, id, to, assigneeId, teamId, minutes, now), context)
    {
      var loaded: Option<nat> := if id in desk.tickets then desk.tickets[id].assigneeId else None;
      r := desk.UpdateStatus(session, id, to, assigneeId, teamId, minutes, now);
      if r.Ok? && to == Tickets.Closed {
        r := rca.EvaluateOnTicketClosed(session.tenantId, context.rcaId, id, context.autoP1, context.priority, loaded,
          context.title, session.userId, context.users);
      }
    }
  }

  // ---- When closing fails, and what it leaves ---------------------------------------------------

  /** The ticket service itself refuses to close the ticket. */
  predicate Refused(desk: Tickets.State, op: Tickets.Op)
    requires Closes(op)
  {
    || !Tickets.Visible(desk, op.session.tenantId, op.id)
    || desk.tickets[op.id].status != Tickets.Resolved
    || !IsLead(op.session.role)
  }

  /** The ticket is CLOSED, dated, and its log goes on with this one link. */
  predicate ClosedBy(desk: Tickets.State, desk': Tickets.State, id: nat, now: Tickets.Time) {
    && id in desk'.tickets && desk'.tickets[id].status == Tickets.Closed && desk'.tickets[id].closedAt == Some(now)
    && Tickets.Trail(desk'.history, id)
       == Tickets.Trail(desk.history, id) + [Tickets.Link(Some(Tickets.Resolved), Tickets.Closed, now)]
  }

  lemma AcceptedCloses(desk: Tickets.State, op: Tickets.Op)
    requires Closes(op)
    ensures Tickets.Apply(desk, op).1.Err? <==> Refused(desk, op)
    ensures Refused(desk, op) ==> Tickets.Apply(desk, op).0 == desk
    ensures !Refused(desk, op) ==> ClosedBy(desk, Tickets.Apply(desk, op).0, op.id, op.now)
  {
    if !Refused(desk, op) {
      var entries := Tickets.UpdateEntries(op.id, Tickets.Resolved, Tickets.Closed, op.now);
      Tickets.TrailAppend(desk.history, entries, op.id);
      Tickets.UpdateTrail(op.id, Tickets.Resolved, Tickets.Closed, op.now);
    }
  }

  /**
   Closing fails exactly when the service refuses it or the ticket is linked to two analyses. Refused, it
   changes nothing; otherwise the ticket is CLOSED, logged and dated, whether the call fails or not.
   */
  lemma CloseFailsIff(s: State, op: Tickets.Op, context: Context)
    requires Closes(op)
    ensures var s', linked := Call(s, op, context).0, Rca.LinkedTo(s.analyses, op.session.tenantId, op.id);
            && (Call(s, op, context).1.Err? <==> Refused(s.desk, op) || |linked| > 1)
            && (Refused(s.desk, op) ==> s' == s)
            && (!Refused(s.desk, op) ==> ClosedBy(s.desk, s'.desk, op.id, op.now))
            && (!Refused(s.desk, op) && |linked| > 1 ==>
                  Call(s, op, context).1 == Err(Ambiguous) && s'.analyses == s.analyses)
  {
    AcceptedCloses(s.desk, op);
  }

  /** In terms of the analysis calls of a run: two of them have linked the ticket. */
  lemma CloseFailsIffLinkedTwice(desk: Tickets.State, ops: seq<Rca.Op>, op: Tickets.Op, context: Context)
    requires Closes(op)
    ensures Call(State(desk, Rca.Run(Rca.EMPTY, ops)), op, context).1.Err?
            <==> Refused(desk, op) || |Rca.Linkers(ops, op.session.tenantId, op.id)| > 1
  {
    CloseFailsIff(State(desk, Rca.Run(Rca.EMPTY, ops)), op, context);
    Rca.LinksAreMade(ops, op.session.tenantId, op.id);
  }

  /** It happens: a resolved ticket with two analyses opened for it by hand cannot be closed without an error. */
  lemma CloseFailsAfterTwoCreates(now: Tickets.Time, context: Context) returns (ops: seq<Tickets.Op>)
    ensures var s := State(Tickets.Run(Tickets.EMPTY, ops), Rca.Run(Rca.EMPTY, Rca.TwoCreates(0)));
            var close := Tickets.UpdateStatus(Tickets.LEAD, 0, Tickets.Closed, None, None, 0, now);
            && Call(s, close, context).1 == Err(Ambiguous)
            && 0 in Call(s, close, context).0.desk.tickets
            && Call(s, close, context).0.desk.tickets[0].status == Tickets.Closed
  {
    var trail := Tickets.BusyHistory(0);
    trail := Tickets.Grow(trail, Tickets.InProgress, Tickets.Resolved, 5, 0);
    ops := Tickets.LegalHistoriesHappen(trail, Tickets.Resolved);
    var s := State(Tickets.Run(Tickets.EMPTY, ops), Rca.Run(Rca.EMPTY, Rca.TwoCreates(0)));
    var close := Tickets.UpdateStatus(Tickets.LEAD, 0, Tickets.Closed, None, None, 0, now);
    CloseFailsIff(s, close, context);
    Rca.TwoCreatesAreAmbiguous(EvaluateOp(s.desk, close, context));
  }

  // ---- What closing achieves over whole runs -------------------------------------------------------

  predicate IsClosed(desk: Tickets.State, id: nat) { id in desk.tickets && desk.tickets[id].status == Tickets.Closed }

  /** Only a status update closes a ticket. */
  lemma OnlyUpdatesClose(desk: Tickets.State, op: Tickets.Op, id: nat)
    requires IsClosed(Tickets.Apply(desk, op).0, id) && !IsClosed(desk, id)
    ensures Closes(op) && op.id == id && !Refused(desk, op)
    ensures Tickets.Apply(desk, op).0.tickets[id].tenantId == op.session.tenantId
  {
    if id in desk.tickets && op.id != id { Tickets.OthersUntouched(desk, op, id); }
  }

  lemma ClosedStays(desk: Tickets.State, op: Tickets.Op, id: nat)
    requires IsClosed(desk, id)
    ensures IsClosed(Tickets.Apply(desk, op).0, id) && Tickets.Apply(desk, op).0.tickets[id] == desk.tickets[id]
  {
    Tickets.OthersUntouched(desk, op, id);
  }

  /** If the event closes the ticket, it finds the rule on and the ticket critical. */
  predicate Critical(e: Event, id: nat) {
    e.TicketCall? && Closes(e.op) && e.op.id == id ==> e.context.autoP1 && e.context.priority == Rca.CRITICAL
  }

  predicate AlwaysCritical(events: seq<Event>, id: nat) { forall k :: 0 <= k < |events| ==> Critical(events[k], id) }

  /** A closed ticket of a tenant is linked to one of its analyses. */
  predicate Covered(s: State, id: nat) {
    IsClosed(s.desk, id) ==> Rca.LinkedTo(s.analyses, s.desk.tickets[id].tenantId, id) != {}
  }

  lemma ClosingCovers(s: State, op: Tickets.Op, context: Context)
    requires Closes(op) && !Refused(s.desk, op) && context.rcaId !in s.analyses.records
    requires context.autoP1 && context.priority == Rca.CRITICAL
    ensures Rca.LinkedTo(Call(s, op, context).0.analyses, op.session.tenantId, op.id) != {}
  {
    var linked := Rca.LinkedTo(s.analyses, op.session.tenantId, op.id);
    if linked == {} {
      assert context.rcaId in Rca.LinkedTo(Call(s, op, context).0.analyses, op.session.tenantId, op.id);
    }
  }

  lemma CoveredStep(s: State, e: Event, id: nat)
    requires Covered(s, id) && Critical(e, id)
    ensures Covered(Step(s, e), id)
  {
    if Enabled(s, e) {
      match e
      case AnalysisCall(op) =>
        if IsClosed(s.desk, id) { Rca.LinksStay(s.analyses, op, s.desk.tickets[id].tenantId, id); }
      case TicketCall(op, context) => CoveredByCall(s, op, context, id);
    }
  }

  lemma CoveredByCall(s: State, op: Tickets.Op, context: Context, id: nat)
    requires Covered(s, id) && context.rcaId !in s.analyses.records
    requires Closes(op) && op.id == id ==> context.autoP1 && context.priority == Rca.CRITICAL
    ensures Covered(Call(s, op, context).0, id)
  {
    if IsClosed(s.desk, id) {
      ClosedStays(s.desk, op, id);
      if Closes(op) && Tickets.Apply(s.desk, op).1.Ok? {
        Rca.LinksStay(s.analyses, EvaluateOp(s.desk, op, context), s.desk.tickets[id].tenantId, id);
      }
    } else if IsClosed(Tickets.Apply(s.desk, op).0, id) {
      OnlyUpdatesClose(s.desk, op, id);
      ClosingCovers(s, op, context);
    }
  }

  /**
   What the rule is for: in every run of ticket, job and analysis calls, a critical ticket that is closed
   is linked to an analysis.
   */
  lemma {:induction false} ClosedCriticalIsAnalysed(events: seq<Event>, id: nat)
    requires AlwaysCritical(events, id)
    ensures Covered(Run(START, events), id)
  {
    if events != [] {
      var last := events[|events| - 1];
      ClosedCriticalIsAnalysed(events[..|events| - 1], id);
      CoveredStep(Run(START, events[..|events| - 1]), last, id);
    }
  }

  /** A close that failed cannot be repeated: whatever follows, the ticket stays closed and closing it is refused. */
  lemma {:induction false} ClosingHappensOnce(s: State, events: seq<Event>, id: nat, op: Tickets.Op, context: Context)
    requires IsClosed(s.desk, id) && op.UpdateStatus? && op.id == id
    ensures IsClosed(Run(s, events).desk, id)
    ensures Call(Run(s, events), op, context).1.Err? && Call(Run(s, events), op, context).0 == Run(s, events)
  {
    if events != [] {
      var before, last := Run(s, events[..|events| - 1]), events[|events| - 1];
      ClosingHappensOnce(s, events[..|events| - 1], id, op, context);
      if last.TicketCall? { ClosedStays(before.desk, last.op, id); }
    }
  }

  /**
   A close that goes through for a critical ticket without an analysis, with the rule on, opens one: a draft under the
   context's title, owned by whoever the rule finds and, technically, by the ticket's assignee.
   */
  lemma ClosingOpens(s: State, op: Tickets.Op, context: Context)
    requires Closes(op) && !Refused(s.desk, op) && context.rcaId !in s.analyses.records
    requires context.autoP1 && context.priority == 1
    requires RcaCalls.Unlinked(s.analyses, op.session.tenantId, op.id)
    ensures var s' := Call(s, op, context).0;
            && context.rcaId in s'.analyses.records && (context.rcaId, op.id) in s'.analyses.links
            && var r, assignee := s'.analyses.records[context.rcaId], s.desk.tickets[op.id].assigneeId;
               && r.tenantId == op.session.tenantId && r.title == context.title && r.status == Rca.Draft
               && RcaCalls.Responsible(context.users, op.session.userId, r.processOwner)
               && r.technicalOwner == if assignee.Some? then assignee.value else r.processOwner
  {
    AcceptedCloses(s.desk, op);
    RcaCalls.OpeningNamesOwners(s.analyses, EvaluateOp(s.desk, op, context));
  }
}
