/**
 Problem management: root cause analyses from draft through review by their two owners to a published
 known error, and the rule that opens one when a critical ticket closes. Every call is atomic here.
 */
module Rca {
  import opened Common

  // ---- Records -----------------------------------------------------------------

  datatype Status = Draft | InReview | Approved | Published | Archived

  function Targets(from: Status): set<Status> {
    match from
    case Draft => {InReview, Archived}
    case InReview => {Draft, Approved}
    case Approved => {Published, Draft}
    case Published => {Archived}
    case Archived => {}
  }

  predicate IsTransitionAllowed(from: Status, to: Status) { to in Targets(from) }

  datatype OwnerRole = ProcessOwner | TechnicalOwner

  /** `Granted` is the stored decision APPROVED. */
  datatype Decision = Pending | Granted

  datatype Approval = Approval(role: OwnerRole, approverId: nat, decision: Decision)

  datatype Record = Record(
    tenantId: nat, title: string, status: Status, rootCause: Option<string>, immediateCause: Option<string>,
    processOwner: nat, technicalOwner: nat, delegateId: Option<nat>)

  datatype KnownError = KnownError(rcaId: nat, description: string)

  /** Approval rows are kept in the order of their role, and there is at most one link per pair. */
  datatype State = State(
    records: map<nat, Record>, approvals: map<nat, seq<Approval>>, links: set<(nat, nat)>, knownErrors: seq<KnownError>)

  const EMPTY: State := State(map[], map[], {}, [])

  datatype User = User(id: nat, role: Role)

  datatype Op =
    | Create(session: Session, id: nat, title: string, processOwner: Option<nat>, technicalOwner: Option<nat>,
        primaryTicket: Option<nat>)
    | Edit(session: Session, id: nat, rootCause: Option<string>, immediateCause: Option<string>)
    | Submit(session: Session, id: nat)
    | Approve(session: Session, id: nat)
    | Publish(session: Session, id: nat)
    | AssignDelegate(session: Session, id: nat, delegateId: Option<nat>)
    | LinkTicket(session: Session, id: nat, ticketId: nat, ticketFound: bool)
    | Evaluate(tenantId: nat, id: nat, ticketId: nat, autoP1: bool, priority: int, assigneeId: Option<nat>,
               title: string, closedBy: nat, users: seq<User>)

  const CRITICAL := 1

  // ---- What a call does ------------------------------------------------------------

  predicate Visible(s: State, tenantId: nat, id: nat) { id in s.records && s.records[id].tenantId == tenantId }

  predicate CanEdit(session: Session, r: Record) { IsLead(session.role) || r.delegateId == Some(session.userId) }

  function Rows(s: State, id: nat): seq<Approval> { if id in s.approvals then s.approvals[id] else [] }

  predicate Blank(text: Option<string>) { text.None? || AllWhite(text.value) }

  function NewRecord(tenantId: nat, title: string, processOwner: nat, technicalOwner: nat): Record {
    Record(tenantId, title, Draft, None, None, processOwner, technicalOwner, None)
  }

  function FreshRows(r: Record): seq<Approval> {
    [Approval(ProcessOwner, r.processOwner, Pending), Approval(TechnicalOwner, r.technicalOwner, Pending)]
  }

  function FirstPending(rows: seq<Approval>): Option<OwnerRole> {
    if rows == [] then None
    else if rows[0].decision == Pending then Some(rows[0].role)
    else FirstPending(rows[1..])
  }

  /** In which role a caller decides: as an owner, or, for a lead, in the first role still open. */
  function ApproverRole(session: Session, r: Record, rows: seq<Approval>): Option<OwnerRole> {
    if session.userId == r.processOwner then Some(ProcessOwner)
    else if session.userId == r.technicalOwner then Some(TechnicalOwner)
    else if IsLead(session.role) then FirstPending(rows)
    else None
  }

  function Decide(rows: seq<Approval>, role: OwnerRole, userId: nat): seq<Approval> {
    if rows == [] then []
    else
      var last := rows[|rows| - 1];
      Decide(rows[..|rows| - 1], role, userId)
      + [if last.role == role then last.(approverId := userId, decision := Granted) else last]
  }

  predicate AllGranted(rows: seq<Approval>) { rows != [] && forall a :: a in rows ==> a.decision == Granted }

  function Description(r: Record): string {
    if r.rootCause.Some? then r.rootCause.value else if r.immediateCause.Some? then r.immediateCause.value else r.title
  }

  /** The analyses a ticket is linked to. */
  function LinkedTo(s: State, tenantId: nat, ticketId: nat): set<nat> {
    set id | id in s.records && s.records[id].tenantId == tenantId && (id, ticketId) in s.links
  }

  function FirstWithRole(users: seq<User>, role: Role): Option<nat> {
    if users == [] then None
    else if users[0].role == role then Some(users[0].id)
    else FirstWithRole(users[1..], role)
  }

  /**
   The process owner of an automatic analysis: the first IT manager, else the first team lead, else whoever closed
   the ticket.
   */
  function AutoProcessOwner(users: seq<User>, closedBy: nat): nat {
    var manager, lead := FirstWithRole(users, ItManager), FirstWithRole(users, TeamLead);
    if manager.Some? then manager.value else if lead.Some? then lead.value else closedBy
  }

  function ValueOr(a: Option<nat>, b: nat): nat { if a.Some? then a.value else b }

  function Created(s: State, id: nat, r: Record, ticket: Option<nat>): State {
    s.(records := s.records[id := r], links := if ticket.Some? then s.links + {(id, ticket.value)} else s.links)
  }

  function ApplySubmit(s: State, session: Session, id: nat): (State, Result<()>) {
    if !Visible(s, session.tenantId, id) then (s, Err(NotFound))
    else
      var r := s.records[id];
      if !CanEdit(session, r) then (s, Err(Forbidden))
      else if Blank(r.rootCause) then (s, Err(BadRequest))
      else if !IsTransitionAllowed(r.status, InReview) then (s, Err(InvalidTransition))
      else
        (s.(records := s.records[id := r.(status := InReview)], approvals := s.approvals[id := FreshRows(r)]), Ok(()))
  }

  function ApplyApprove(s: State, session: Session, id: nat): (State, Result<()>) {
    if !Visible(s, session.tenantId, id) then (s, Err(NotFound))
    else
      var r := s.records[id];
      var role := ApproverRole(session, r, Rows(s, id));
      if r.status != InReview then (s, Err(BadRequest))
      else if role.None? then (s, Err(Forbidden))
      else
        var rows := Decide(Rows(s, id), role.value, session.userId);
        (s.(records := if AllGranted(rows) then s.records[id := r.(status := Approved)] else s.records,
            approvals := s.approvals[id := rows]), Ok(()))
  }

  function ApplyPublish(s: State, session: Session, id: nat): (State, Result<()>) {
    if !IsLead(session.role) then (s, Err(Forbidden))
    else if !Visible(s, session.tenantId, id) then (s, Err(NotFound))
    else if s.records[id].status != Approved then (s, Err(BadRequest))
    else
      (s.(records := s.records[id := s.records[id].(status := Published)],
          knownErrors := s.knownErrors + [KnownError(id, Description(s.records[id]))]), Ok(()))
  }

  function ApplyEvaluate(s: State, tenantId: nat, id: nat, ticketId: nat, autoP1: bool, priority: int,
          assigneeId: Option<nat>, title: string, closedBy: nat, users: seq<User>): (State, Result<()>)
  {
    var linked := LinkedTo(s, tenantId, ticketId);
    if |linked| > 1 then (s, Err(Ambiguous))
    else if |linked| == 1 || !autoP1 || priority != CRITICAL then (s, Ok(()))
    else
      var owner := AutoProcessOwner(users, closedBy);
      (Created(s, id, NewRecord(tenantId, title, owner, ValueOr(assigneeId, owner)), Some(ticketId)), Ok(()))
  }

  /** The state and answer of one call. */
  function Apply(s: State, op: Op): (State, Result<()>) {
    match op
    case Create(session, id, title, processOwner, technicalOwner, ticket) =>
      if !IsLead(session.role) then (s, Err(Forbidden))
      else
        (Created(s, id, NewRecord(session.tenantId, title, ValueOr(processOwner, session.userId),
            ValueOr(technicalOwner, session.userId)),
                 ticket), Ok(()))
    case Edit(session, id, rootCause, immediateCause) =>
      if !Visible(s, session.tenantId, id) then (s, Err(NotFound))
      else if !CanEdit(session, s.records[id]) then (s, Err(Forbidden))
      else
        var r := s.records[id];
        (s.(records := s.records[id := r.(rootCause := OrElse(rootCause, r.rootCause),
                                          immediateCause := OrElse(immediateCause, r.immediateCause))]), Ok(()))
    case Submit(session, id) => ApplySubmit(s, session, id)
    case Approve(session, id) => ApplyApprove(s, session, id)
    case Publish(session, id) => ApplyPublish(s, session, id)
    case AssignDelegate(session, id, delegateId) =>
      if !IsLead(session.role) then (s, Err(Forbidden))
      else if !Visible(s, session.tenantId, id) then (s, Err(NotFound))
      else (s.(records := s.records[id := s.records[id].(delegateId := delegateId)]), Ok(()))
    case LinkTicket(session, id, ticketId, ticketFound) =>
      if !IsLead(session.role) then (s, Err(Forbidden))
      else if !Visible(s, session.tenantId, id) || !ticketFound then (s, Err(NotFound))
      else (s.(links := s.links + {(id, ticketId)}), Ok(()))
    case Evaluate(tenantId, id, ticketId, autoP1, priority, assigneeId, title, closedBy, users) =>
      ApplyEvaluate(s, tenantId, id, ticketId, autoP1, priority, assigneeId, title, closedBy, users)
  }

  /** A new analysis gets a new identifier. */
  predicate Enabled(s: State, op: Op) { op.Create? || op.Evaluate? ==> op.id !in s.records }

  function Step(s: State, op: Op): State { if Enabled(s, op) then Apply(s, op).0 else s }

  function Run(s: State, ops: seq<Op>): State {
    if ops == [] then s else Step(Run(s, ops[..|ops| - 1]), ops[|ops| - 1])
  }

  predicate Accepted(s: State, op: Op) { Enabled(s, op) && Apply(s, op).1.Ok? }

  // ---- The service ---------------------------------------------------------------------

  class RcaService {
    var records: map<nat, Record>
    var approvals: map<nat, seq<Approval>>
    var links: set<(nat, nat)>
    var knownErrors: seq<KnownError>

    constructor ()
      ensures Snapshot() == EMPTY
    {
      records, approvals, links, knownErrors := map[], map[], {}, [];
    }

    function Snapshot(): State
      reads this
    {
      State(records, approvals, links, knownErrors)
    }

    method CreateProblemAndRca(tenantId: nat, id: nat, title: string, processOwner: nat, technicalOwner: nat,
            ticket: Option<nat>)
      modifies this`records, this`links
      ensures Snapshot() == Created(old(Snapshot()), id, NewRecord(tenantId, title, processOwner, technicalOwner),
              ticket)
    {
      records := records[id := NewRecord(tenantId, title, processOwner, technicalOwner)];
      if ticket.Some? { links := links + {(id, ticket.value)}; }
    }

    method Create(session: Session, id: nat, title: string, processOwner: Option<nat>, technicalOwner: Option<nat>,
            ticket: Option<nat>)
        returns (r: Result<()>)
      requires id !in records
      modifies this
      ensures (Snapshot(), r) == Apply(old(Snapshot()), Op.Create(session, id, title, processOwner, technicalOwner,
              ticket))
    {
      if !IsLead(session.role) { return Err(Forbidden); }
      var process := if processOwner.Some? then processOwner.value else session.userId;
      var technical := if technicalOwner.Some? then technicalOwner.value else session.userId;
      CreateProblemAndRca(session.tenantId, id, title, process, technical, ticket);
      r := Ok(());
    }

    method Update(session: Session, id: nat, rootCause: Option<string>, immediateCause: Option<string>)
            returns (r: Result<()>)
      modifies this
      ensures (Snapshot(), r) == Apply(old(Snapshot()), Edit(session, id, rootCause, immediateCause))
    {
      if id !in records || records[id].tenantId != session.tenantId { return Err(NotFound); }
      if !CanEdit(session, records[id]) { return Err(Forbidden); }
      var rca := records[id];
      if rootCause.Some? { rca := rca.(rootCause := rootCause); }
      if immediateCause.Some? { rca := rca.(immediateCause := immediateCause); }
      records := records[id := rca];
      r := Ok(());
    }

    /** Both approval rows start over. */
    method ResetApprovals(id: nat, processOwner: nat, technicalOwner: nat)
      modifies this`approvals
      ensures approvals
              == old(approvals)[id := [Approval(ProcessOwner, processOwner, Pending),
                  Approval(TechnicalOwner, technicalOwner, Pending)]]
    {
      var rows := [];
      rows := rows + [Approval(ProcessOwner, processOwner, Pending)];
      rows := rows + [Approval(TechnicalOwner, technicalOwner, Pending)];
      assert rows == [Approval(ProcessOwner, processOwner, Pending), Approval(TechnicalOwner, technicalOwner, Pending)];
      approvals := approvals[id := rows];
    }

    method SubmitForReview(session: Session, id: nat) returns (r: Result<()>)
      modifies this
      ensures (Snapshot(), r) == Apply(old(Snapshot()), Submit(session, id))
    {
      if id !in records || records[id].tenantId != session.tenantId { return Err(NotFound); }
      var rca := records[id];
      if !CanEdit(session, rca) { return Err(Forbidden); }
      if Blank(rca.rootCause) { return Err(BadRequest); }
      if !IsTransitionAllowed(rca.status, InReview) { return Err(InvalidTransition); }
      records := records[id := rca.(status := InReview)];
      ResetApprovals(id, rca.processOwner, rca.technicalOwner);
      r := Ok(());
    }

    method SetApprovalDecision(id: nat, role: OwnerRole, userId: nat)
      modifies this`approvals
      ensures approvals == old(approvals)[id := Decide(Rows(old(Snapshot()), id), role, userId)]
    {
      var rows := Rows(Snapshot(), id);
      var decided := [];
      var i := 0;
      while i < |rows|
        invariant 0 <= i <= |rows|
        invariant decided == Decide(rows[..i], role, userId)
      {
        var row := rows[i];
        if row.role == role { row := row.(approverId := userId, decision := Granted); }
        assert rows[..i + 1][..i] == rows[..i];
        decided := decided + [row];
        i := i + 1;
      }
      assert rows[..|rows|] == rows;
      approvals := approvals[id := decided];
    }

    method ApproveRca(session: Session, id: nat) returns (r: Result<()>)
      modifies this
      ensures (Snapshot(), r) == Apply(old(Snapshot()), Approve(session, id))
    {
      if id !in records || records[id].tenantId != session.tenantId { return Err(NotFound); }
      var rca := records[id];
      if rca.status != InReview { return Err(BadRequest); }
      var role: Option<OwnerRole> := None;
      if session.userId == rca.processOwner {
        role := Some(ProcessOwner);
      } else if session.userId == rca.technicalOwner {
        role := Some(TechnicalOwner);
      } else if IsLead(session.role) {
        role := FirstPending(Rows(Snapshot(), id));
      }
      if role.None? { return Err(Forbidden); }
      SetApprovalDecision(id, role.value, session.userId);
      if AllGranted(Rows(Snapshot(), id)) {
        records := records[id := rca.(status := Approved)];
      }
      r := Ok(());
    }

    method PublishRca(session: Session, id: nat) returns (r: Result<()>)
      modifies this
      ensures (Snapshot(), r) == Apply(old(Snapshot()), Publish(session, id))
    {
      if !IsLead(session.role) { return Err(Forbidden); }
      if id !in records || records[id].tenantId != session.tenantId { return Err(NotFound); }
      var rca := records[id];
      if rca.status != Approved { return Err(BadRequest); }
      if !IsTransitionAllowed(rca.status, Published) { return Err(InvalidTransition); }
      records := records[id := rca.(status := Published)];
      knownErrors := knownErrors + [KnownError(id, Description(rca))];
      r := Ok(());
    }

    method Delegate(session: Session, id: nat, delegateId: Option<nat>) returns (r: Result<()>)
      modifies this
      ensures (Snapshot(), r) == Apply(old(Snapshot()), Op.AssignDelegate(session, id, delegateId))
    {
      if !IsLead(session.role) { return Err(Forbidden); }
      if id !in records || records[id].tenantId != session.tenantId { return Err(NotFound); }
      records := records[id := records[id].(delegateId := delegateId)];
      r := Ok(());
    }

    method Link(session: Session, id: nat, ticketId: nat, ticketFound: bool) returns (r: Result<()>)
      modifies this
      ensures (Snapshot(), r) == Apply(old(Snapshot()), Op.LinkTicket(session, id, ticketId, ticketFound))
    {
      if !IsLead(session.role) { return Err(Forbidden); }
      if id !in records || records[id].tenantId != session.tenantId { return Err(NotFound); }
      if !ticketFound { return Err(NotFound); }
      if (id, ticketId) !in links { links := links + {(id, ticketId)}; }
      r := Ok(());
      assert links == old(links) + {(id, ticketId)};
    }

    method EvaluateOnTicketClosed(tenantId: nat, id: nat, ticketId: nat, autoP1: bool, priority: int,
            assigneeId: Option<nat>, title: string, closedBy: nat, users: seq<User>) returns (r: Result<()>)
      requires id !in records
      modifies this
      ensures (Snapshot(), r)
              == Apply(old(Snapshot()), Evaluate(tenantId, id, ticketId, autoP1, priority, assigneeId, title, closedBy,
                  users))
    {
      var existing := LinkedTo(Snapshot(), tenantId, ticketId);
      if |existing| > 1 { return Err(Ambiguous); }
      if |existing| == 1 { return Ok(()); }
      if !autoP1 || priority != CRITICAL { return Ok(()); }
      var manager, lead := FirstWithRole(users, ItManager), FirstWithRole(users, TeamLead);
      var processOwner := if manager.Some? then manager.value else if lead.Some? then lead.value else closedBy;
      var technicalOwner := if assigneeId.Some? then assigneeId.value else processOwner;
      CreateProblemAndRca(tenantId, id, title, processOwner, technicalOwner, Some(ticketId));
      r := Ok(());
    }
  }

  // ---- Who decided, as the run tells it -----------------------------------------------------

  /** Who last decided in each role since the last accepted submission, read off the calls alone. */
  function Ballots(ops: seq<Op>, id: nat): map<OwnerRole, nat> {
    if ops == [] then map[]
    else
      var init, op := ops[..|ops| - 1], ops[|ops| - 1];
      var s := Run(EMPTY, init);
      if op.id != id || !Accepted(s, op) || id !in s.records then Ballots(init, id)
      else if op.Submit? then map[]
      else if op.Approve? then
        var role := ApproverRole(op.session, s.records[id], Rows(s, id));
        if role.Some? then Ballots(init, id)[role.value := op.session.userId] else Ballots(init, id)
      else Ballots(init, id)
  }

  /** One approval row tells what the run did about its role. */
  predicate Recorded(row: Approval, role: OwnerRole, owner: nat, ballots: map<OwnerRole, nat>) {
    && row.role == role
    && (row.decision == Granted <==> role in ballots)
    && row.approverId == if role in ballots then ballots[role] else owner
  }

  predicate RowsRecorded(r: Record, rows: seq<Approval>, ballots: map<OwnerRole, nat>) {
    && |rows| == 2
    && Recorded(rows[0], ProcessOwner, r.processOwner, ballots)
    && Recorded(rows[1], TechnicalOwner, r.technicalOwner, ballots)
  }

  predicate BothDecided(ballots: map<OwnerRole, nat>) { ProcessOwner in ballots && TechnicalOwner in ballots }

  function ErrorsOf(errors: seq<KnownError>, id: nat): nat {
    if errors == [] then 0
    else ErrorsOf(errors[..|errors| - 1], id) + if errors[|errors| - 1].rcaId == id then 1 else 0
  }

  /** What every analysis satisfies, given its approval rows, its ballots and its known errors. */
  predicate RecordInv(r: Record, rows: seq<Approval>, ballots: map<OwnerRole, nat>, errors: nat) {
    match r.status
    case Draft => rows == [] && ballots == map[] && errors == 0
    case InReview => RowsRecorded(r, rows, ballots) && !BothDecided(ballots) && errors == 0 && r.rootCause.Some?
    case Approved => RowsRecorded(r, rows, ballots) && BothDecided(ballots) && errors == 0 && r.rootCause.Some?
    case Published => RowsRecorded(r, rows, ballots) && BothDecided(ballots) && errors == 1 && r.rootCause.Some?
    case Archived => false
  }

  predicate Known(s: State) {
    && s.approvals.Keys <= s.records.Keys
    && (forall e :: e in s.knownErrors ==> e.rcaId in s.records)
    && (forall l :: l in s.links ==> l.0 in s.records)
  }

  predicate InvFor(s: State, id: nat, ballots: map<OwnerRole, nat>) {
    id in s.records ==> RecordInv(s.records[id], Rows(s, id), ballots, ErrorsOf(s.knownErrors, id))
  }

  ghost predicate Inv(ops: seq<Op>) {
    Known(Run(EMPTY, ops)) && forall id :: InvFor(Run(EMPTY, ops), id, Ballots(ops, id))
  }

  // ---- Every run keeps the invariant -----------------------------------------------------------

  lemma RefusedChangesNothing(s: State, op: Op)
    requires !Accepted(s, op)
    ensures Step(s, op) == s
  {
  }

  lemma ErrorsAppend(errors: seq<KnownError>, e: KnownError, id: nat)
    ensures ErrorsOf(errors + [e], id) == ErrorsOf(errors, id) + if e.rcaId == id then 1 else 0
  {
    assert (errors + [e])[..|errors + [e]| - 1] == errors;
  }

  lemma {:induction false} NoErrorsOf(errors: seq<KnownError>, id: nat)
    requires forall e :: e in errors ==> e.rcaId != id
    ensures ErrorsOf(errors, id) == 0
  {
    if errors != [] {
      assert errors[|errors| - 1] in errors;
      NoErrorsOf(errors[..|errors| - 1], id);
    }
  }

  /** Nothing about an analysis differs between two states. */
  predicate SameFor(s: State, s': State, id: nat) {
    && (id in s'.records <==> id in s.records) && (id in s.records ==> s'.records[id] == s.records[id])
    && Rows(s', id) == Rows(s, id) && ErrorsOf(s'.knownErrors, id) == ErrorsOf(s.knownErrors, id)
  }

  lemma PublishOthers(s: State, session: Session, other: nat, id: nat)
    requires id != other
    ensures SameFor(s, ApplyPublish(s, session, other).0, id)
  {
    if other in s.records { ErrorsAppend(s.knownErrors, KnownError(other, Description(s.records[other])), id); }
  }

  lemma EvaluateOthers(s: State, op: Op, id: nat)
    requires op.Evaluate? && id != op.id
    ensures SameFor(s, Apply(s, op).0, id)
  {
  }

  /** A call touches the analysis it names and no other. */
  lemma OthersUntouched(s: State, op: Op, id: nat)
    requires id != op.id
    ensures SameFor(s, Apply(s, op).0, id)
  {
    match op
    case Publish(session, other) => PublishOthers(s, session, other, id);
    case Evaluate(_, _, _, _, _, _, _, _, _) => EvaluateOthers(s, op, id);
    case _ =>
  }

  lemma DecideTwo(a: Approval, b: Approval, role: OwnerRole, userId: nat)
    ensures Decide([a, b], role, userId)
            == [if a.role == role then a.(approverId := userId, decision := Granted) else a,
                if b.role == role then b.(approverId := userId, decision := Granted) else b]
  {
    assert [a, b][..1] == [a] && [a][..0] == [];
    assert Decide([a], role, userId) == [if a.role == role then a.(approverId := userId, decision := Granted) else a];
  }

  /** One decision: the rows record it, and they are all granted exactly when both roles have decided. */
  lemma DecideRecords(r: Record, rows: seq<Approval>, ballots: map<OwnerRole, nat>, role: OwnerRole, userId: nat)
    requires RowsRecorded(r, rows, ballots)
    ensures var rows' := Decide(rows, role, userId);
            && RowsRecorded(r, rows', ballots[role := userId])
            && (AllGranted(rows') <==> BothDecided(ballots[role := userId]))
  {
    assert rows == [rows[0], rows[1]];
    DecideTwo(rows[0], rows[1], role, userId);
    var rows' := Decide(rows, role, userId);
    assert rows'[0] in rows' && rows'[1] in rows';
  }

  lemma ApproveInv(s: State, session: Session, id: nat, ballots: map<OwnerRole, nat>)
    requires InvFor(s, id, ballots) && ApplyApprove(s, session, id).1.Ok?
    ensures InvFor(ApplyApprove(s, session, id).0, id,
                   ballots[ApproverRole(session, s.records[id], Rows(s, id)).value := session.userId])
  {
    var role := ApproverRole(session, s.records[id], Rows(s, id)).value;
    DecideRecords(s.records[id], Rows(s, id), ballots, role, session.userId);
  }

  lemma PublishInv(s: State, session: Session, id: nat, ballots: map<OwnerRole, nat>)
    requires InvFor(s, id, ballots) && ApplyPublish(s, session, id).1.Ok?
    ensures InvFor(ApplyPublish(s, session, id).0, id, ballots)
  {
    ErrorsAppend(s.knownErrors, KnownError(id, Description(s.records[id])), id);
  }

  /** What the ballots become when a call on an analysis is accepted. */
  function BallotsAfter(s: State, op: Op, ballots: map<OwnerRole, nat>): map<OwnerRole, nat> {
    if op.id !in s.records then ballots
    else if op.Submit? then map[]
    else if op.Approve? then
      var role := ApproverRole(op.session, s.records[op.id], Rows(s, op.id));
      if role.Some? then ballots[role.value := op.session.userId] else ballots
    else ballots
  }

  lemma AcceptedInv(s: State, op: Op, ballots: map<OwnerRole, nat>)
    requires Known(s) && Accepted(s, op) && InvFor(s, op.id, ballots)
    requires op.id !in s.records ==> ballots == map[]
    ensures InvFor(Apply(s, op).0, op.id, BallotsAfter(s, op, ballots))
  {
    if op.id !in s.records { NoErrorsOf(s.knownErrors, op.id); }
    match op
    case Approve(session, id) => ApproveInv(s, session, id, ballots);
    case Publish(session, id) => PublishInv(s, session, id, ballots);
    case Submit(session, id) => assert s.records[id].status == Draft;
    case _ =>
  }

  lemma {:induction false} UnknownHasNoBallots(ops: seq<Op>, id: nat)
    requires id !in Run(EMPTY, ops).records
    ensures Ballots(ops, id) == map[]
  {
    if ops != [] {
      var init, op := ops[..|ops| - 1], ops[|ops| - 1];
      RecordsGrow(Run(EMPTY, init), op, id);
      UnknownHasNoBallots(init, id);
    }
  }

  lemma RecordsGrow(s: State, op: Op, id: nat)
    ensures id in s.records ==> id in Step(s, op).records
  {
  }

  lemma KnownStep(s: State, op: Op)
    requires Known(s)
    ensures Known(Step(s, op))
  {
  }

  lemma InvStep(init: seq<Op>, op: Op, id: nat)
    requires Inv(init)
    ensures InvFor(Step(Run(EMPTY, init), op), id, Ballots(init + [op], id))
  {
    var s, ops := Run(EMPTY, init), init + [op];
    assert ops[..|ops| - 1] == init;
    assert InvFor(s, id, Ballots(init, id));
    if !Accepted(s, op) {
      RefusedChangesNothing(s, op);
    } else if op.id != id {
      OthersUntouched(s, op, id);
    } else {
      if id !in s.records { UnknownHasNoBallots(init, id); }
      AcceptedInv(s, op, Ballots(init, id));
      assert Ballots(ops, id) == BallotsAfter(s, op, Ballots(init, id));
    }
  }

  /**
   In every state a run can reach, an APPROVED or PUBLISHED analysis has had a decision in both roles
   since its last submission, one IN_REVIEW has not, its approval rows say who decided, and it has one
   known error once published and none before.
   */
  lemma {:induction false} RunInv(ops: seq<Op>)
    ensures Inv(ops)
  {
    if ops == [] {
    } else {
      var init, op := ops[..|ops| - 1], ops[|ops| - 1];
      RunInv(init);
      KnownStep(Run(EMPTY, init), op);
      assert init + [op] == ops;
      forall id
        ensures InvFor(Run(EMPTY, ops), id, Ballots(ops, id))
      {
        InvStep(init, op, id);
      }
    }
  }

  // ---- What one person can do alone ----------------------------------------------------------------

  function Rank(status: Status): nat {
    match status
    case Draft => 0
    case InReview => 1
    case Approved => 2
    case Published => 3
    case Archived => 4
  }

  /** Nothing is ever deleted, owners and tenants stay, and no service call moves an analysis back. */
  lemma {:induction false} NeverMovesBack(s: State, ops: seq<Op>, id: nat)
    requires id in s.records
    ensures var s' := Run(s, ops);
            && id in s'.records && Rank(s.records[id].status) <= Rank(s'.records[id].status)
            && s'.records[id].processOwner == s.records[id].processOwner
            && s'.records[id].technicalOwner == s.records[id].technicalOwner
            && s'.records[id].tenantId == s.records[id].tenantId
  {
    if ops != [] {
      NeverMovesBack(s, ops[..|ops| - 1], id);
      StepMovesForward(Run(s, ops[..|ops| - 1]), ops[|ops| - 1], id);
    }
  }

  lemma StepMovesForward(s: State, op: Op, id: nat)
    requires id in s.records
    ensures var s' := Step(s, op);
            && id in s'.records && Rank(s.records[id].status) <= Rank(s'.records[id].status)
            && s'.records[id].processOwner == s.records[id].processOwner
            && s'.records[id].technicalOwner == s.records[id].technicalOwner
            && s'.records[id].tenantId == s.records[id].tenantId
  {
    if op.id != id && Enabled(s, op) { OthersUntouched(s, op, id); }
  }

  /** The approve calls of a run on one analysis are all made by one user. */
  predicate OnlyApprover(ops: seq<Op>, id: nat, user: nat) {
    forall i :: 0 <= i < |ops| ==> ops[i].Approve? && ops[i].id == id ==> ops[i].session.userId == user
  }

  lemma {:induction false} OwnerBallots(ops: seq<Op>, id: nat, user: nat)
    requires OnlyApprover(ops, id, user)
    requires id in Run(EMPTY, ops).records
    ensures var r := Run(EMPTY, ops).records[id];
            && (user == r.processOwner ==> TechnicalOwner !in Ballots(ops, id))
            && (user != r.processOwner && user == r.technicalOwner ==> ProcessOwner !in Ballots(ops, id))
  {
    if ops != [] {
      var init, op := ops[..|ops| - 1], ops[|ops| - 1];
      if id in Run(EMPTY, init).records {
        OwnerBallots(init, id, user);
        StepMovesForward(Run(EMPTY, init), op, id);
      } else {
        UnknownHasNoBallots(init, id);
      }
    }
  }

  /**
   An owner cannot carry an analysis alone, not even one who holds both roles or is a lead: if every
   approval is that owner's, it is never approved and never published.
   */
  lemma OwnerAloneNeverApproves(ops: seq<Op>, id: nat, user: nat)
    requires OnlyApprover(ops, id, user)
    requires id in Run(EMPTY, ops).records
    requires var r := Run(EMPTY, ops).records[id]; user == r.processOwner || user == r.technicalOwner
    ensures var r := Run(EMPTY, ops).records[id]; r.status == Draft || r.status == InReview
  {
    RunInv(ops);
    OwnerBallots(ops, id, user);
    assert InvFor(Run(EMPTY, ops), id, Ballots(ops, id));
  }

  /** An approve call that could count: made as a lead of the analysis's tenant. */
  predicate LeadCall(op: Op, id: nat, tenantId: nat) {
    op.Approve? && op.id == id && IsLead(op.session.role) && op.session.tenantId == tenantId
  }

  function LeadCalls(ops: seq<Op>, id: nat, tenantId: nat): nat {
    if ops == [] then 0
    else LeadCalls(ops[..|ops| - 1], id, tenantId) + if LeadCall(ops[|ops| - 1], id, tenantId) then 1 else 0
  }

  predicate AwaitsBoth(s: State, id: nat) {
    id in s.records && s.records[id].status == InReview && Rows(s, id) == FreshRows(s.records[id])
  }

  /** A user who owns neither role grants the rows in order, one per call made as a lead. */
  function RowsAfterLead(r: Record, user: nat, calls: nat): seq<Approval> {
    if calls == 0 then FreshRows(r)
    else if calls == 1 then [Approval(ProcessOwner, user, Granted), Approval(TechnicalOwner, r.technicalOwner, Pending)]
    else [Approval(ProcessOwner, user, Granted), Approval(TechnicalOwner, user, Granted)]
  }

  /** Owners and tenant are those of `start`. */
  predicate SameOwners(s: State, id: nat, start: Record) {
    && id in s.records && s.records[id].tenantId == start.tenantId
    && s.records[id].processOwner == start.processOwner && s.records[id].technicalOwner == start.technicalOwner
  }

  predicate Passed(status: Status) { status == Approved || status == Published }

  /** Where the analysis stands after so many calls made as a lead by a user who owns neither role. */
  predicate LeadState(s: State, id: nat, start: Record, user: nat, calls: nat) {
    && SameOwners(s, id, start) && Rows(s, id) == RowsAfterLead(start, user, calls)
    && if calls >= 2 then Passed(s.records[id].status) else s.records[id].status == InReview
  }

  lemma FirstPendingTwo(a: Approval, b: Approval)
    ensures FirstPending([a, b]) == if a.decision == Pending then Some(a.role) else if b.decision
            == Pending then Some(b.role) else None
  {
    assert [a, b][1..] == [b] && [b][1..] == [];
    assert FirstPending([b]) == if b.decision == Pending then Some(b.role) else None;
  }

  lemma LeadApproves(s: State, session: Session, id: nat, start: Record, calls: nat)
    requires session.userId != start.processOwner && session.userId != start.technicalOwner
    requires LeadState(s, id, start, session.userId, calls)
    ensures LeadState(ApplyApprove(s, session, id).0, id, start, session.userId,
                      calls + if LeadCall(Approve(session, id), id, start.tenantId) then 1 else 0)
  {
    var rows := Rows(s, id);
    if calls < 2 && LeadCall(Approve(session, id), id, start.tenantId) {
      FirstPendingTwo(rows[0], rows[1]);
      assert rows == [rows[0], rows[1]];
      var role := if calls == 0 then ProcessOwner else TechnicalOwner;
      DecideTwo(rows[0], rows[1], role, session.userId);
      var rows' := Decide(rows, role, session.userId);
      assert rows' == RowsAfterLead(start, session.userId, calls + 1);
      assert rows'[1] in rows';
    }
  }

  /** What anybody else does meanwhile, short of approving, leaves the rows and the review as they are. */
  lemma BystanderStep(s: State, op: Op, id: nat, start: Record)
    requires SameOwners(s, id, start) && (op.id == id ==> !op.Approve?)
    requires s.records[id].status == InReview || Passed(s.records[id].status)
    ensures SameOwners(Step(s, op), id, start) && Rows(Step(s, op), id) == Rows(s, id)
    ensures Passed(Step(s, op).records[id].status) <==> Passed(s.records[id].status)
    ensures Step(s, op).records[id].status == InReview <==> s.records[id].status == InReview
  {
    if op.id != id && Enabled(s, op) { OthersUntouched(s, op, id); }
  }

  lemma LeadStep(s: State, op: Op, id: nat, start: Record, user: nat, calls: nat)
    requires user != start.processOwner && user != start.technicalOwner && LeadState(s, id, start, user, calls)
    requires op.Approve? && op.id == id ==> op.session.userId == user
    ensures LeadState(Step(s, op), id, start, user, calls + if LeadCall(op, id, start.tenantId) then 1 else 0)
  {
    if op.Approve? && op.id == id {
      LeadApproves(s, op.session, id, start, calls);
    } else {
      BystanderStep(s, op, id, start);
    }
  }

  lemma {:induction false} LeadAlone(s: State, ops: seq<Op>, id: nat, user: nat)
    requires AwaitsBoth(s, id) && user != s.records[id].processOwner && user != s.records[id].technicalOwner
    requires OnlyApprover(ops, id, user)
    ensures LeadState(Run(s, ops), id, s.records[id], user, LeadCalls(ops, id, s.records[id].tenantId))
  {
    if ops != [] {
      var init := ops[..|ops| - 1];
      LeadAlone(s, init, id, user);
      LeadStep(Run(s, init), ops[|ops| - 1], id, s.records[id], user, LeadCalls(init, id, s.records[id].tenantId));
    }
  }

  /** The role an owner is left without: the process owner's row is the first one that fits. */
  function OtherRole(r: Record, user: nat): OwnerRole {
    if user == r.processOwner then TechnicalOwner else ProcessOwner
  }

  /** Where the analysis stands while only an owner approves: still in review, with the other role's row open. */
  predicate OwnerState(s: State, id: nat, start: Record, user: nat) {
    && SameOwners(s, id, start) && s.records[id].status == InReview && |Rows(s, id)| == 2
    && Rows(s, id)[0].role == ProcessOwner && Rows(s, id)[1].role == TechnicalOwner
    && Rows(s, id)[if OtherRole(start, user) == ProcessOwner then 0 else 1].decision == Pending
  }

  lemma OwnerApproves(s: State, session: Session, id: nat, start: Record)
    requires session.userId == start.processOwner || session.userId == start.technicalOwner
    requires OwnerState(s, id, start, session.userId)
    ensures OwnerState(ApplyApprove(s, session, id).0, id, start, session.userId)
  {
    var rows := Rows(s, id);
    assert rows == [rows[0], rows[1]];
    var role := if session.userId == start.processOwner then ProcessOwner else TechnicalOwner;
    DecideTwo(rows[0], rows[1], role, session.userId);
    var rows' := Decide(rows, role, session.userId);
    assert rows'[0] in rows' && rows'[1] in rows';
  }

  lemma OwnerStep(s: State, op: Op, id: nat, start: Record, user: nat)
    requires user == start.processOwner || user == start.technicalOwner
    requires OwnerState(s, id, start, user) && (op.Approve? && op.id == id ==> op.session.userId == user)
    ensures OwnerState(Step(s, op), id, start, user)
  {
    if op.Approve? && op.id == id {
      OwnerApproves(s, op.session, id, start);
    } else {
      BystanderStep(s, op, id, start);
    }
  }

  /** An owner grants the one row of that owner's first role, however often and in whatever capacity. */
  lemma {:induction false} OwnerAlone(s: State, ops: seq<Op>, id: nat, user: nat)
    requires AwaitsBoth(s, id) && (user == s.records[id].processOwner || user == s.records[id].technicalOwner)
    requires OnlyApprover(ops, id, user)
    ensures OwnerState(Run(s, ops), id, s.records[id], user)
  {
    if ops != [] {
      OwnerAlone(s, ops[..|ops| - 1], id, user);
      OwnerStep(Run(s, ops[..|ops| - 1]), ops[|ops| - 1], id, s.records[id], user);
    }
  }

  /**
   From a submission on, whatever else is called in between, as long as one user makes all the approvals
   they carry the analysis exactly when that user owns neither role and made at least two of them as a
   lead: two pairs of eyes are not assured.
   */
  lemma SoloApprovalIff(s: State, ops: seq<Op>, id: nat, user: nat)
    requires AwaitsBoth(s, id) && OnlyApprover(ops, id, user)
    ensures var s', r := Run(s, ops), s.records[id];
            && id in s'.records
            && (Passed(s'.records[id].status)
                <==> user != r.processOwner && user != r.technicalOwner && LeadCalls(ops, id, r.tenantId) >= 2)
  {
    if user == s.records[id].processOwner || user == s.records[id].technicalOwner {
      OwnerAlone(s, ops, id, user);
    } else {
      LeadAlone(s, ops, id, user);
    }
  }

  /** Who has made an accepted approval since the last accepted submission, read off the calls alone. */
  function Approvers(ops: seq<Op>, id: nat): set<nat> {
    if ops == [] then {}
    else
      var init, op := ops[..|ops| - 1], ops[|ops| - 1];
      if op.id != id || !Accepted(Run(EMPTY, init), op) then Approvers(init, id)
      else if op.Submit? then {}
      else if op.Approve? then Approvers(init, id) + {op.session.userId}
      else Approvers(init, id)
  }

  predicate IsOwner(r: Record, user: nat) { user == r.processOwner || user == r.technicalOwner }

  /** The role an owner always decides in: the process owner's comes first. */
  predicate ActsAsOwner(r: Record, user: nat, role: OwnerRole) {
    if user == r.processOwner then role == ProcessOwner else user == r.technicalOwner && role == TechnicalOwner
  }

  /** An approver is still named by a row, unless the owner of that row has decided over it. */
  predicate Traceable(r: Record, ballots: map<OwnerRole, nat>, user: nat) {
    exists role :: role in ballots && (ballots[role] == user || ActsAsOwner(r, ballots[role], role))
  }

  predicate BallotsTell(r: Record, ballots: map<OwnerRole, nat>, approvers: set<nat>) {
    && (forall role :: role in ballots ==> ballots[role] in approvers)
    && (forall role :: role in ballots && IsOwner(r, ballots[role]) ==> ActsAsOwner(r, ballots[role], role))
    && forall user :: user in approvers ==> Traceable(r, ballots, user)
  }

  lemma PendingIsOpen(r: Record, rows: seq<Approval>, ballots: map<OwnerRole, nat>)
    requires RowsRecorded(r, rows, ballots) && FirstPending(rows).Some?
    ensures FirstPending(rows).value !in ballots
  {
    assert rows == [rows[0], rows[1]];
    FirstPendingTwo(rows[0], rows[1]);
  }

  /** An owner decides in the owner's role, anybody else in one that was open. */
  predicate MayDecide(r: Record, ballots: map<OwnerRole, nat>, user: nat, role: OwnerRole) {
    ActsAsOwner(r, user, role) || (!IsOwner(r, user) && role !in ballots)
  }

  lemma BallotTells(r: Record, ballots: map<OwnerRole, nat>, approvers: set<nat>, user: nat, role: OwnerRole)
    requires BallotsTell(r, ballots, approvers) && MayDecide(r, ballots, user, role)
    ensures BallotsTell(r, ballots[role := user], approvers + {user})
  {
    var ballots' := ballots[role := user];
    forall other | other in approvers + {user}
      ensures Traceable(r, ballots', other)
    {
      if other == user {
        assert role in ballots';
      } else {
        var q :| q in ballots && (ballots[q] == other || ActsAsOwner(r, ballots[q], q));
        assert q in ballots';
      }
    }
  }

  lemma ApprovalTells(s: State, session: Session, id: nat, ballots: map<OwnerRole, nat>, approvers: set<nat>)
    requires InvFor(s, id, ballots) && ApplyApprove(s, session, id).1.Ok?
    requires BallotsTell(s.records[id], ballots, approvers)
    ensures var role := ApproverRole(session, s.records[id], Rows(s, id)).value;
            BallotsTell(s.records[id], ballots[role := session.userId], approvers + {session.userId})
  {
    if !IsOwner(s.records[id], session.userId) { PendingIsOpen(s.records[id], Rows(s, id), ballots); }
    BallotTells(s.records[id], ballots, approvers, session.userId,
      ApproverRole(session, s.records[id], Rows(s, id)).value);
  }

  /** Owners stay, so what the ballots tell they tell of the record after any call. */
  lemma TellsOfNext(s: State, op: Op, id: nat, ballots: map<OwnerRole, nat>, approvers: set<nat>)
    requires id in s.records && BallotsTell(s.records[id], ballots, approvers)
    ensures id in Step(s, op).records && BallotsTell(Step(s, op).records[id], ballots, approvers)
  {
    StepMovesForward(s, op, id);
    SameOwnersTell(s.records[id], Step(s, op).records[id], ballots, approvers);
  }

  lemma SameOwnersTell(r: Record, r': Record, ballots: map<OwnerRole, nat>, approvers: set<nat>)
    requires BallotsTell(r, ballots, approvers)
    requires r'.processOwner == r.processOwner && r'.technicalOwner == r.technicalOwner
    ensures BallotsTell(r', ballots, approvers)
  {
    forall user | user in approvers
      ensures Traceable(r', ballots, user)
    {
      var role :| role in ballots && (ballots[role] == user || ActsAsOwner(r, ballots[role], role));
      assert ballots[role] == user || ActsAsOwner(r', ballots[role], role);
    }
  }

  lemma {:induction false} BallotsTellApprovers(ops: seq<Op>, id: nat)
    requires id in Run(EMPTY, ops).records
    ensures BallotsTell(Run(EMPTY, ops).records[id], Ballots(ops, id), Approvers(ops, id))
  {
    if ops != [] {
      var init, op := ops[..|ops| - 1], ops[|ops| - 1];
      var s := Run(EMPTY, init);
      if id !in s.records {
        UnknownHasNoBallots(init, id);
        UnknownHasNoApprovers(init, id);
      } else {
        BallotsTellApprovers(init, id);
        if op.id == id && op.Approve? && Accepted(s, op) {
          RunInv(init);
          assert InvFor(s, id, Ballots(init, id));
          ApprovalTells(s, op.session, id, Ballots(init, id), Approvers(init, id));
        }
        TellsOfNext(s, op, id, Ballots(ops, id), Approvers(ops, id));
      }
    }
  }

  lemma {:induction false} UnknownHasNoApprovers(ops: seq<Op>, id: nat)
    requires id !in Run(EMPTY, ops).records
    ensures Approvers(ops, id) == {}
  {
    if ops != [] {
      var init, op := ops[..|ops| - 1], ops[|ops| - 1];
      RecordsGrow(Run(EMPTY, init), op, id);
      UnknownHasNoApprovers(init, id);
    }
  }

  /** The approval rows of an analysis name this user and no other. */
  predicate RowsName(s: State, id: nat, user: nat) { forall a :: a in Rows(s, id) ==> a.approverId == user }

  lemma OneNameIff(r: Record, ballots: map<OwnerRole, nat>, approvers: set<nat>, user: nat)
    requires BallotsTell(r, ballots, approvers) && BothDecided(ballots)
    ensures ballots[ProcessOwner] == user && ballots[TechnicalOwner] == user <==> approvers == {user}
    ensures approvers == {user} ==> !IsOwner(r, user)
  {
    if ballots[ProcessOwner] == user && ballots[TechnicalOwner] == user {
      assert !IsOwner(r, user);
      forall other | other in approvers
        ensures other == user
      {
        var role :| role in ballots && (ballots[role] == other || ActsAsOwner(r, ballots[role], role));
        assert role == ProcessOwner || role == TechnicalOwner;
        assert ballots[role] == user;
      }
    }
  }

  /**
   In every reachable state in which an analysis is approved or published, both rows name one and the same
   user exactly when every approval accepted since the submission was that user's, who then owns neither role.
   */
  lemma OneNameIsOneApprover(ops: seq<Op>, id: nat, user: nat)
    requires id in Run(EMPTY, ops).records && Passed(Run(EMPTY, ops).records[id].status)
    ensures RowsName(Run(EMPTY, ops), id, user) <==> Approvers(ops, id) == {user}
    ensures Approvers(ops, id) == {user} ==> !IsOwner(Run(EMPTY, ops).records[id], user)
  {
    var s, ballots := Run(EMPTY, ops), Ballots(ops, id);
    RunInv(ops);
    assert InvFor(s, id, ballots);
    BallotsTellApprovers(ops, id);
    OneNameIff(s.records[id], ballots, Approvers(ops, id), user);
    var rows := Rows(s, id);
    assert rows == [rows[0], rows[1]] && rows[0] in rows && rows[1] in rows;
  }

  // ---- What gets published ------------------------------------------------------------------------------

  /** In a run, a published known error carries the root cause: the fallbacks to other texts are never taken. */
  lemma PublishedTextIsRootCause(ops: seq<Op>, op: Op)
    requires op.Publish? && Accepted(Run(EMPTY, ops), op)
    ensures var s := Run(EMPTY, ops);
            && s.records[op.id].rootCause.Some?
            && Step(s, op).knownErrors == s.knownErrors + [KnownError(op.id, s.records[op.id].rootCause.value)]
  {
    RunInv(ops);
    assert InvFor(Run(EMPTY, ops), op.id, Ballots(ops, op.id));
  }

  /** The root cause of the last accepted edit that carries one, if any. */
  function LastText(s: State, ops: seq<Op>, id: nat): Option<string> {
    if ops == [] then None
    else
      var init, op := ops[..|ops| - 1], ops[|ops| - 1];
      if op.Edit? && op.id == id && op.rootCause.Some? && Accepted(Run(s, init), op) then op.rootCause
      else LastText(s, init, id)
  }

  /** Over any run the root cause is the text of the last accepted edit, else what it was. */
  lemma {:induction false} TextIsLastEdit(s: State, ops: seq<Op>, id: nat)
    requires id in s.records
    ensures id in Run(s, ops).records
    ensures Run(s, ops).records[id].rootCause == OrElse(LastText(s, ops, id), s.records[id].rootCause)
  {
    if ops != [] {
      var init, op := ops[..|ops| - 1], ops[|ops| - 1];
      TextIsLastEdit(s, init, id);
      TextStep(Run(s, init), op, id);
    }
  }

  lemma TextStep(s: State, op: Op, id: nat)
    requires id in s.records
    ensures id in Step(s, op).records
    ensures Step(s, op).records[id].rootCause
            == if op.Edit? && op.id == id && op.rootCause.Some? && Accepted(s, op) then op.rootCause
               else s.records[id].rootCause
  {
    if op.id != id && Enabled(s, op) { OthersUntouched(s, op, id); }
  }

  lemma EditReplaces(s: State, session: Session, id: nat, text: string)
    requires Visible(s, session.tenantId, id) && IsLead(session.role)
    ensures Run(s, [Edit(session, id, Some(text), None)])
            == s.(records := s.records[id := s.records[id].(rootCause := Some(text))])
  {
    var edit := Edit(session, id, Some(text), None);
    RunSnoc(s, [], edit);
    assert [] + [edit] == [edit];
  }

  /** Any lead can put any text in the place of the approved one and publish it, without a new decision. */
  lemma EditAfterApprovalIsPublished(s: State, session: Session, id: nat, text: string)
    requires Visible(s, session.tenantId, id) && s.records[id].status == Approved && IsLead(session.role)
    ensures var s' := Run(s, [Edit(session, id, Some(text), None)] + [Publish(session, id)]);
            && id in s'.records && s'.records[id].status == Published && Rows(s', id) == Rows(s, id)
            && s'.knownErrors == s.knownErrors + [KnownError(id, text)]
  {
    var edit, publish := Edit(session, id, Some(text), None), Publish(session, id);
    EditReplaces(s, session, id, text);
    RunSnoc(s, [edit], publish);
  }

  /** What an accepted publication appends. */
  function PublishedText(s: State, op: Op): string
    requires op.Publish? && op.id in s.records
  {
    Description(s.records[op.id])
  }

  /**
   From a state in which the analysis is already APPROVED on: what is published is the text it then has
   exactly when no edit accepted since carries another one.
   */
  lemma PublishedIsUnchangedIff(before: seq<Op>, ops: seq<Op>, op: Op)
    requires var s := Run(EMPTY, before); op.id in s.records && s.records[op.id].status == Approved
    requires op.Publish? && Accepted(Run(Run(EMPTY, before), ops), op)
    ensures var s := Run(EMPTY, before);
            var s', text := Run(s, ops), LastText(s, ops, op.id);
            && s.records[op.id].rootCause.Some? && op.id in s'.records
            && Step(s', op).knownErrors == s'.knownErrors + [KnownError(op.id, PublishedText(s', op))]
            && (PublishedText(s', op) == s.records[op.id].rootCause.value
                <==> text.None? || text == s.records[op.id].rootCause)
  {
    var s := Run(EMPTY, before);
    RunInv(before);
    assert InvFor(s, op.id, Ballots(before, op.id));
    TextIsLastEdit(s, ops, op.id);
  }

  /** The root cause a role's last decision since the last accepted submission was made on, read off the calls. */
  function DecidedText(ops: seq<Op>, id: nat, role: OwnerRole): Option<string> {
    if ops == [] then None
    else
      var init, op := ops[..|ops| - 1], ops[|ops| - 1];
      var s := Run(EMPTY, init);
      if op.id != id || !Accepted(s, op) || id !in s.records then DecidedText(init, id, role)
      else if op.Submit? then None
      else if Decides(s, op, role) then s.records[id].rootCause
      else DecidedText(init, id, role)
  }

  /** An accepted approval decides in the caller's role. */
  predicate Decides(s: State, op: Op, role: OwnerRole)
    requires op.id in s.records
  {
    op.Approve? && ApproverRole(op.session, s.records[op.id], Rows(s, op.id)) == Some(role)
  }

  /** The root cause of the last edit accepted since that decision that carries one, if any. */
  function EditedSince(ops: seq<Op>, id: nat, role: OwnerRole): Option<string> {
    if ops == [] then None
    else
      var init, op := ops[..|ops| - 1], ops[|ops| - 1];
      var s := Run(EMPTY, init);
      if op.id != id || !Accepted(s, op) || id !in s.records then EditedSince(init, id, role)
      else if op.Edit? && op.rootCause.Some? then op.rootCause
      else if Decides(s, op, role) then None
      else EditedSince(init, id, role)
  }

  /** A role with a ballot has decided on a text, and edits since then say what became of it. */
  predicate TextTold(text: Option<string>, voted: bool, decided: Option<string>, since: Option<string>) {
    (decided.Some? <==> voted) && (decided.Some? ==> text == OrElse(since, decided))
  }

  lemma {:induction false} DecisionsAreTold(ops: seq<Op>, id: nat, role: OwnerRole)
    requires id in Run(EMPTY, ops).records
    ensures TextTold(Run(EMPTY, ops).records[id].rootCause, role in Ballots(ops, id), DecidedText(ops, id, role),
                     EditedSince(ops, id, role))
  {
    if ops != [] {
      var init, op := ops[..|ops| - 1], ops[|ops| - 1];
      var s := Run(EMPTY, init);
      if id !in s.records {
        UnknownHasNoBallots(init, id);
        UnknownHasNoText(init, id, role);
      } else {
        DecisionsAreTold(init, id, role);
        RunInv(init);
        assert InvFor(s, id, Ballots(init, id));
        TextStep(s, op, id);
      }
    }
  }

  lemma {:induction false} UnknownHasNoText(ops: seq<Op>, id: nat, role: OwnerRole)
    requires id !in Run(EMPTY, ops).records
    ensures DecidedText(ops, id, role) == None
  {
    if ops != [] {
      var init, op := ops[..|ops| - 1], ops[|ops| - 1];
      RecordsGrow(Run(EMPTY, init), op, id);
      UnknownHasNoText(init, id, role);
    }
  }

  /** The last edit accepted since a role's last decision, if any, carries the text it was made on. */
  predicate Unedited(ops: seq<Op>, id: nat, role: OwnerRole) {
    EditedSince(ops, id, role).None? || EditedSince(ops, id, role) == DecidedText(ops, id, role)
  }

  /**
   In every run, the text an accepted publication appends is the one a role decided on exactly when the
   last edit accepted since that decision carries it or there is none.
   */
  lemma PublishedIsDecidedIff(ops: seq<Op>, op: Op, role: OwnerRole)
    requires op.Publish? && Accepted(Run(EMPTY, ops), op)
    ensures var s, decided := Run(EMPTY, ops), DecidedText(ops, op.id, role);
            && op.id in s.records && decided.Some?
            && Step(s, op).knownErrors == s.knownErrors + [KnownError(op.id, PublishedText(s, op))]
            && (PublishedText(s, op) == decided.value <==> Unedited(ops, op.id, role))
  {
    var s := Run(EMPTY, ops);
    RunInv(ops);
    assert InvFor(s, op.id, Ballots(ops, op.id));
    DecisionsAreTold(ops, op.id, role);
  }

  predicate BothDecidedOn(ops: seq<Op>, id: nat, text: string) {
    DecidedText(ops, id, ProcessOwner) == Some(text) && DecidedText(ops, id, TechnicalOwner) == Some(text)
  }

  /**
   What is published is what was approved, by both roles, exactly when for both of them the last edit
   accepted since the decision, if any, carries the text it was made on.
   */
  lemma PublishedIsApprovedIff(ops: seq<Op>, op: Op)
    requires op.Publish? && Accepted(Run(EMPTY, ops), op)
    ensures var s := Run(EMPTY, ops);
            && op.id in s.records
            && (BothDecidedOn(ops, op.id, PublishedText(s, op))
                <==> Unedited(ops, op.id, ProcessOwner) && Unedited(ops, op.id, TechnicalOwner))
  {
    PublishedIsDecidedIff(ops, op, ProcessOwner);
    PublishedIsDecidedIff(ops, op, TechnicalOwner);
  }

  /**
   A submission needs a root cause that is not blank, yet a blank one is published exactly when the last
   edit accepted since the submission made it so.
   */
  lemma PublishedBlankIff(s: State, submit: Op, ops: seq<Op>, op: Op)
    requires submit.Submit? && Accepted(s, submit) && op.Publish? && op.id == submit.id
    requires Accepted(Run(Step(s, submit), ops), op)
    ensures var s' := Run(Step(s, submit), ops);
            var text := LastText(Step(s, submit), ops, op.id);
            op.id in s'.records && (AllWhite(PublishedText(s', op)) <==> text.Some? && AllWhite(text.value))
  {
    TextIsLastEdit(Step(s, submit), ops, op.id);
  }

  lemma RunSnoc(s: State, ops: seq<Op>, op: Op)
    ensures Run(s, ops + [op]) == Step(Run(s, ops), op)
  {
    assert (ops + [op])[..|ops + [op]| - 1] == ops;
  }

  const LEAD: Session := Session(1, 7, TeamLead)

  function OwnerSession(user: nat): Session { Session(1, user, Engineer) }

  const SUBMITTED: seq<Op> :=
    [Create(LEAD, 0, "outage", Some(1), Some(2), None)] + [Edit(LEAD, 0, Some("cause"), None)] + [Submit(LEAD, 0)]

  const REVIEWED: seq<Op> := SUBMITTED + [Approve(OwnerSession(1), 0)] + [Approve(OwnerSession(2), 0)]

  const REVIEW_RECORD: Record := Record(1, "outage", InReview, Some("cause"), None, 1, 2, None)

  /** The state with these approval rows. */
  function Reviewing(r: Record, first: Approval, second: Approval): State {
    State(map[0 := r], map[0 := [first, second]], {}, [])
  }

  lemma NotBlank()
    ensures !Blank(Some("cause"))
  {
    var c: char := 'c';
    assert "cause"[0] == c && c as int == 99;
    assert !IsWhite(c);
  }

  lemma SubmittedIsReached()
    ensures Run(EMPTY, SUBMITTED)
            == Reviewing(REVIEW_RECORD, Approval(ProcessOwner, 1, Pending), Approval(TechnicalOwner, 2, Pending))
  {
    var create, edit := Create(LEAD, 0, "outage", Some(1), Some(2), None), Edit(LEAD, 0, Some("cause"), None);
    var draft := NewRecord(1, "outage", 1, 2);
    RunSnoc(EMPTY, [], create);
    assert [] + [create] == [create] && Run(EMPTY, [create]) == State(map[0 := draft], map[], {}, []);
    RunSnoc(EMPTY, [create], edit);
    var s := State(map[0 := draft.(rootCause := Some("cause"))], map[], {}, []);
    assert Run(EMPTY, [create] + [edit]) == s;
    RunSnoc(EMPTY, [create] + [edit], Submit(LEAD, 0));
    NotBlank();
  }

  lemma FirstApproval(first: Approval, second: Approval)
    requires first == Approval(ProcessOwner, 1, Pending) && second == Approval(TechnicalOwner, 2, Pending)
    ensures Step(Reviewing(REVIEW_RECORD, first, second), Approve(OwnerSession(1), 0))
            == Reviewing(REVIEW_RECORD, first.(decision := Granted), second)
  {
    DecideTwo(first, second, ProcessOwner, 1);
    assert second in [first.(decision := Granted), second];
  }

  lemma SecondApproval(r: Record, first: Approval, second: Approval)
    requires r == REVIEW_RECORD.(rootCause := r.rootCause)
    requires first == Approval(ProcessOwner, 1, Granted) && second == Approval(TechnicalOwner, 2, Pending)
    ensures Step(Reviewing(r, first, second), Approve(OwnerSession(2), 0))
            == Reviewing(r.(status := Approved), first, second.(decision := Granted))
  {
    DecideTwo(first, second, TechnicalOwner, 2);
  }

  /** A run in which both owners approve "cause". */
  lemma ReviewedIsReached()
    ensures Run(EMPTY, REVIEWED)
            == Reviewing(REVIEW_RECORD.(status := Approved), Approval(ProcessOwner, 1, Granted),
                         Approval(TechnicalOwner, 2, Granted))
  {
    SubmittedIsReached();
    RunSnoc(EMPTY, SUBMITTED, Approve(OwnerSession(1), 0));
    RunSnoc(EMPTY, SUBMITTED + [Approve(OwnerSession(1), 0)], Approve(OwnerSession(2), 0));
    FirstApproval(Approval(ProcessOwner, 1, Pending), Approval(TechnicalOwner, 2, Pending));
    SecondApproval(REVIEW_RECORD, Approval(ProcessOwner, 1, Granted), Approval(TechnicalOwner, 2, Pending));
  }

  /** A run in which the owners approve different texts: the second is put in after the process owner's decision. */
  const SPLIT: seq<Op> :=
    SUBMITTED + [Approve(OwnerSession(1), 0)] + [Edit(LEAD, 0, Some("other"), None)] + [Approve(OwnerSession(2), 0)]

  lemma EditedInReview()
    ensures var first := SUBMITTED + [Approve(OwnerSession(1), 0)];
            var granted, open := Approval(ProcessOwner, 1, Granted), Approval(TechnicalOwner, 2, Pending);
            && Run(EMPTY, first) == Reviewing(REVIEW_RECORD, granted, open)
            && Run(EMPTY, first + [Edit(LEAD, 0, Some("other"), None)])
               == Reviewing(REVIEW_RECORD.(rootCause := Some("other")), granted, open)
  {
    SubmittedIsReached();
    RunSnoc(EMPTY, SUBMITTED, Approve(OwnerSession(1), 0));
    FirstApproval(Approval(ProcessOwner, 1, Pending), Approval(TechnicalOwner, 2, Pending));
    RunSnoc(EMPTY, SUBMITTED + [Approve(OwnerSession(1), 0)], Edit(LEAD, 0, Some("other"), None));
  }

  lemma SplitIsReached()
    ensures Run(EMPTY, SPLIT)
            == Reviewing(REVIEW_RECORD.(status := Approved, rootCause := Some("other")),
                         Approval(ProcessOwner, 1, Granted), Approval(TechnicalOwner, 2, Granted))
  {
    EditedInReview();
    RunSnoc(EMPTY, SUBMITTED + [Approve(OwnerSession(1), 0)] + [Edit(LEAD, 0, Some("other"), None)],
      Approve(OwnerSession(2), 0));
    SecondApproval(REVIEW_RECORD.(rootCause := Some("other")), Approval(ProcessOwner, 1, Granted),
      Approval(TechnicalOwner, 2, Pending));
  }

  lemma SplitTexts()
    ensures DecidedText(SPLIT, 0, ProcessOwner) == Some("cause")
    ensures DecidedText(SPLIT, 0, TechnicalOwner) == Some("other")
  {
    var first := SUBMITTED + [Approve(OwnerSession(1), 0)];
    var edited := first + [Edit(LEAD, 0, Some("other"), None)];
    EditedInReview();
    SubmittedIsReached();
    assert first[..|first| - 1] == SUBMITTED && edited[..|edited| - 1] == first && SPLIT[..|SPLIT| - 1] == edited;
    assert DecidedText(first, 0, ProcessOwner) == Some("cause");
    assert DecidedText(edited, 0, ProcessOwner) == DecidedText(first, 0, ProcessOwner);
  }

  /** It publishes a text the process owner never decided on, although nothing is edited after the approval. */
  lemma SplitTextIsPublished()
    ensures Run(EMPTY, SPLIT).records.Keys == {0} && Run(EMPTY, SPLIT).records[0].status == Approved
    ensures Run(EMPTY, SPLIT + [Publish(LEAD, 0)]).knownErrors == [KnownError(0, "other")]
    ensures DecidedText(SPLIT, 0, ProcessOwner) == Some("cause")
    ensures DecidedText(SPLIT, 0, TechnicalOwner) == Some("other")
  {
    SplitIsReached();
    RunSnoc(EMPTY, SPLIT, Publish(LEAD, 0));
    SplitTexts();
  }

  /** After both approvals of "cause", an edit to nothing is published without a new decision. */
  lemma BlankIsPublished()
    ensures Run(EMPTY, REVIEWED + [Edit(LEAD, 0, Some(""), None)] + [Publish(LEAD, 0)]).knownErrors
            == [KnownError(0, "")]
  {
    ReviewedIsReached();
    RunSnoc(EMPTY, REVIEWED, Edit(LEAD, 0, Some(""), None));
    RunSnoc(EMPTY, REVIEWED + [Edit(LEAD, 0, Some(""), None)], Publish(LEAD, 0));
    var s := Run(EMPTY, REVIEWED + [Edit(LEAD, 0, Some(""), None)]);
    assert s.records[0] == REVIEW_RECORD.(status := Approved, rootCause := Some(""));
  }

  // ---- The automatic trigger -------------------------------------------------------------------------------

  lemma SingletonSize(ids: set<nat>, id: nat)
    requires ids == {id}
    ensures |ids| == 1
  {
  }

  /**
   Closing a ticket opens an analysis exactly when the ticket has none, the rule is on and the ticket is
   critical; the new analysis is then the ticket's only one, and closing it again changes nothing. It
   fails exactly when the ticket is linked to two analyses, and then changes nothing either.
   */
  lemma EvaluateOpensOne(s: State, first: Op, again: Op)
    requires Known(s) && first.Evaluate? && Enabled(s, first)
    requires again.Evaluate? && again.tenantId == first.tenantId && again.ticketId == first.ticketId
    ensures var linked, s' := LinkedTo(s, first.tenantId, first.ticketId), Step(s, first);
            && (Apply(s, first).1.Err? <==> |linked| > 1)
            && (s' != s <==> linked == {} && first.autoP1 && first.priority == CRITICAL)
            && (s' != s ==>
                  LinkedTo(s', first.tenantId, first.ticketId) == {first.id} && s'.records[first.id].status == Draft)
            && (s' != s || linked != {} ==> Step(s', again) == s')
  {
    var linked, s' := LinkedTo(s, first.tenantId, first.ticketId), Step(s, first);
    if |linked| == 0 && first.autoP1 && first.priority == CRITICAL {
      assert first.id in s'.records;
      assert LinkedTo(s', first.tenantId, first.ticketId) == {first.id};
      SingletonSize(LinkedTo(s', first.tenantId, first.ticketId), first.id);
    }
  }

  /** A call that links a ticket to an analysis: a creation for it, a link, or an evaluation that opens one. */
  predicate Links(s: State, op: Op, tenantId: nat, ticketId: nat) {
    && Accepted(s, op)
    && match op
       case Create(session, _, _, _, _, primary) => session.tenantId == tenantId && primary == Some(ticketId)
       case LinkTicket(session, _, ticket, _) => session.tenantId == tenantId && ticket == ticketId
       case Evaluate(tenant, _, ticket, autoP1, priority, _, _, _, _) =>
         tenant == tenantId && ticket == ticketId && autoP1 && priority == CRITICAL && LinkedTo(s, tenant, ticket) == {}
       case _ => false
  }

  /** The analyses the calls of a run have linked a ticket to. */
  function Linkers(ops: seq<Op>, tenantId: nat, ticketId: nat): set<nat> {
    if ops == [] then {}
    else
      var init, op := ops[..|ops| - 1], ops[|ops| - 1];
      Linkers(init, tenantId, ticketId) + if Links(Run(EMPTY, init), op, tenantId, ticketId) then {op.id} else {}
  }

  lemma LinkStep(s: State, op: Op, tenantId: nat, ticketId: nat)
    requires Known(s)
    ensures LinkedTo(Step(s, op), tenantId, ticketId)
            == LinkedTo(s, tenantId, ticketId) + if Links(s, op, tenantId, ticketId) then {op.id} else {}
  {
    var after := LinkedTo(Step(s, op), tenantId, ticketId);
    forall id
      ensures id in after
              <==> id in LinkedTo(s, tenantId, ticketId) || (id == op.id && Links(s, op, tenantId, ticketId))
    {
      LinkStepFor(s, op, tenantId, ticketId, id);
    }
  }

  lemma LinkStepFor(s: State, op: Op, tenantId: nat, ticketId: nat, id: nat)
    requires Known(s)
    ensures id in LinkedTo(Step(s, op), tenantId, ticketId)
            <==> id in LinkedTo(s, tenantId, ticketId) || (id == op.id && Links(s, op, tenantId, ticketId))
  {
    if op.id != id && Enabled(s, op) { OthersUntouched(s, op, id); }
  }

  /** The links in a reachable state are those its calls made. */
  lemma {:induction false} LinksAreMade(ops: seq<Op>, tenantId: nat, ticketId: nat)
    ensures LinkedTo(Run(EMPTY, ops), tenantId, ticketId) == Linkers(ops, tenantId, ticketId)
  {
    if ops != [] {
      var init := ops[..|ops| - 1];
      LinksAreMade(init, tenantId, ticketId);
      RunInv(init);
      LinkStep(Run(EMPTY, init), ops[|ops| - 1], tenantId, ticketId);
    }
  }

  /** In every reachable state an evaluation fails exactly when the calls so far linked the ticket to two analyses. */
  lemma EvaluationFailsIff(ops: seq<Op>, op: Op)
    requires op.Evaluate?
    ensures Apply(Run(EMPTY, ops), op).1.Err? <==> |Linkers(ops, op.tenantId, op.ticketId)| >= 2
    ensures Apply(Run(EMPTY, ops), op).1.Err? ==>
              Apply(Run(EMPTY, ops), op) == (Run(EMPTY, ops), Err(Ambiguous))
  {
    LinksAreMade(ops, op.tenantId, op.ticketId);
  }

  /** Two analyses opened by hand for one ticket. */
  function TwoCreates(ticketId: nat): seq<Op> {
    [Create(LEAD, 0, "a", None, None, Some(ticketId)), Create(LEAD, 1, "b", None, None, Some(ticketId))]
  }

  /** After them closing that ticket fails from then on. */
  lemma TwoCreatesAreAmbiguous(op: Op)
    requires op.Evaluate? && op.tenantId == LEAD.tenantId
    ensures var ops := TwoCreates(op.ticketId);
            Linkers(ops, LEAD.tenantId, op.ticketId) == {0, 1} && Apply(Run(EMPTY, ops), op).1 == Err(Ambiguous)
  {
    var ops := TwoCreates(op.ticketId);
    assert ops[..1] == [ops[0]] && [ops[0]][..0] == [];
    assert Run(EMPTY, [ops[0]]) == Step(EMPTY, ops[0]);
    assert Linkers([], LEAD.tenantId, op.ticketId) == {} && Linkers([ops[0]], LEAD.tenantId, op.ticketId) == {0};
    assert Linkers(ops, LEAD.tenantId, op.ticketId) == {0, 1};
    EvaluationFailsIff(ops, op);
  }

  /** Links are only ever added, so a ticket linked to two analyses makes every later evaluation fail. */
  lemma {:induction false} AmbiguousForever(s: State, ops: seq<Op>, op: Op)
    requires op.Evaluate? && |LinkedTo(s, op.tenantId, op.ticketId)| > 1
    ensures LinkedTo(s, op.tenantId, op.ticketId) <= LinkedTo(Run(s, ops), op.tenantId, op.ticketId)
    ensures Apply(Run(s, ops), op) == (Run(s, ops), Err(Ambiguous))
  {
    var linked := LinkedTo(s, op.tenantId, op.ticketId);
    if ops != [] {
      AmbiguousForever(s, ops[..|ops| - 1], op);
      LinksStay(Run(s, ops[..|ops| - 1]), ops[|ops| - 1], op.tenantId, op.ticketId);
    }
    SubsetSize(linked, LinkedTo(Run(s, ops), op.tenantId, op.ticketId));
  }

  lemma LinksStay(s: State, op: Op, tenantId: nat, ticketId: nat)
    ensures LinkedTo(s, tenantId, ticketId) <= LinkedTo(Step(s, op), tenantId, ticketId)
  {
    forall id | id in LinkedTo(s, tenantId, ticketId)
      ensures id in LinkedTo(Step(s, op), tenantId, ticketId)
    {
      StepMovesForward(s, op, id);
      assert s.links <= Step(s, op).links;
    }
  }

  lemma {:induction false} SubsetSize(a: set<nat>, b: set<nat>)
    requires a <= b
    ensures |a| <= |b|
  {
    if a != {} {
      var x :| x in a;
      SubsetSize(a - {x}, b - {x});
    }
  }
}
