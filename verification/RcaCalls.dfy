/**
 What the calls of a run tell about root cause analyses: which calls are accepted, every column of an analysis read off
 the accepted calls, the owners an evaluation names, and whose decision an approval records.
 */
module RcaCalls {
  import opened Common
  import opened Rca

  // ---- Which calls are accepted ---------------------------------------------------------------------

  predicate Leads(session: Session) { session.role != Engineer && session.role != Executive }

  predicate Reaches(s: State, session: Session, id: nat) {
    id in s.records && s.records[id].tenantId == session.tenantId
  }

  predicate MayEdit(s: State, session: Session, id: nat) {
    Reaches(s, session, id) && (Leads(session) || s.records[id].delegateId == Some(session.userId))
  }

  predicate Says(text: Option<string>) {
    text.Some? && exists k :: 0 <= k < |text.value| && !IsWhite(text.value[k])
  }

  predicate IsOpen(rows: seq<Approval>) { exists k :: 0 <= k < |rows| && rows[k].decision == Pending }

  predicate Owns(r: Record, userId: nat) { userId == r.processOwner || userId == r.technicalOwner }

  predicate IsLinked(s: State, tenantId: nat, id: nat, ticketId: nat) {
    id in s.records && s.records[id].tenantId == tenantId && (id, ticketId) in s.links
  }

  /** No two analyses of the tenant are linked to the ticket. */
  predicate LinkedOnce(s: State, tenantId: nat, ticketId: nat) {
    forall a, b :: a in s.records && b in s.records && a != b ==>
      !IsLinked(s, tenantId, a, ticketId) || !IsLinked(s, tenantId, b, ticketId)
  }

  /** The calls that go through. */
  predicate Goes(s: State, op: Op) {
    match op
    case Create(session, _, _, _, _, _) => Leads(session)
    case Edit(session, id, _, _) => MayEdit(s, session, id)
    case Submit(session, id) =>
      MayEdit(s, session, id) && Says(s.records[id].rootCause) && s.records[id].status == Draft
    case Approve(session, id) =>
      && Reaches(s, session, id) && s.records[id].status == InReview
      && (Owns(s.records[id], session.userId) || (Leads(session) && IsOpen(Rows(s, id))))
    case Publish(session, id) => Leads(session) && Reaches(s, session, id) && s.records[id].status == Approved
    case AssignDelegate(session, id, _) => Leads(session) && Reaches(s, session, id)
    case LinkTicket(session, id, _, ticketFound) => Leads(session) && Reaches(s, session, id) && ticketFound
    case Evaluate(tenantId, _, ticketId, _, _, _, _, _, _) => LinkedOnce(s, tenantId, ticketId)
  }

  lemma FewMembers(ids: set<nat>)
    ensures |ids| > 1 <==> exists a, b :: a in ids && b in ids && a != b
  {
    if |ids| > 1 {
      var a :| a in ids;
      var rest := ids - {a};
      assert |rest| >= 1;
      var b :| b in rest;
    }
    if a, b :| a in ids && b in ids && a != b {
      assert {a, b} <= ids;
      SubsetSize({a, b}, ids);
    }
  }

  lemma AmbiguousIff(s: State, tenantId: nat, ticketId: nat)
    ensures |LinkedTo(s, tenantId, ticketId)| > 1 <==> !LinkedOnce(s, tenantId, ticketId)
  {
    var ids := LinkedTo(s, tenantId, ticketId);
    FewMembers(ids);
    assert forall id :: id in ids <==> IsLinked(s, tenantId, id, ticketId);
  }

  lemma {:induction false} OpenIff(rows: seq<Approval>)
    ensures FirstPending(rows).Some? <==> IsOpen(rows)
  {
    if rows != [] {
      OpenIff(rows[1..]);
      if IsOpen(rows) && rows[0].decision != Pending {
        var k :| 0 <= k < |rows| && rows[k].decision == Pending;
        assert rows[1..][k - 1].decision == Pending;
      }
    }
  }

  /** A call goes through exactly as stated, and is refused, changing nothing, otherwise. */
  lemma GoesIff(s: State, op: Op)
    ensures Apply(s, op).1.Ok? <==> Goes(s, op)
    ensures Apply(s, op).1.Err? ==> Apply(s, op).0 == s
  {
    match op
    case Evaluate(tenantId, _, ticketId, _, _, _, _, _, _) => AmbiguousIff(s, tenantId, ticketId);
    case Approve(_, id) => OpenIff(Rows(s, id));
    case _ =>
  }

  // ---- The owners an evaluation names ------------------------------------------------------------------

  predicate FirstOf(users: seq<User>, role: Role, k: nat) {
    k < |users| && users[k].role == role && forall j :: 0 <= j < k ==> users[j].role != role
  }

  predicate FirstIs(users: seq<User>, role: Role, id: nat) {
    exists k: nat :: k < |users| && FirstOf(users, role, k) && users[k].id == id
  }

  predicate NoneOf(users: seq<User>, role: Role) { forall j :: 0 <= j < |users| ==> users[j].role != role }

  /** The first IT manager; without one the first team lead; without either the user who closed the ticket. */
  predicate Responsible(users: seq<User>, closedBy: nat, owner: nat) {
    || FirstIs(users, ItManager, owner)
    || (NoneOf(users, ItManager) && FirstIs(users, TeamLead, owner))
    || (NoneOf(users, ItManager) && NoneOf(users, TeamLead) && owner == closedBy)
  }

  lemma {:induction false} FirstIsThere(users: seq<User>, role: Role)
    ensures match FirstWithRole(users, role)
            case None => NoneOf(users, role)
            case Some(owner) => FirstIs(users, role, owner)
  {
    if users != [] {
      if users[0].role == role {
        assert FirstOf(users, role, 0);
      } else {
        var rest := users[1..];
        FirstIsThere(rest, role);
        if FirstWithRole(rest, role).Some? {
          var k: nat :| k < |rest| && FirstOf(rest, role, k) && rest[k].id == FirstWithRole(rest, role).value;
          assert users[k + 1] == rest[k];
          assert forall j :: 0 < j < k + 1 ==> users[j] == rest[j - 1];
          assert FirstOf(users, role, k + 1);
        }
      }
    }
  }

  predicate Unlinked(s: State, tenantId: nat, ticketId: nat) {
    forall id :: id in s.records ==> !IsLinked(s, tenantId, id, ticketId)
  }

  /** The call opens an analysis: it is created, or the rule opens it for a critical ticket that has none. */
  predicate Opens(s: State, op: Op) {
    && Enabled(s, op)
    && ((op.Create? && Leads(op.session))
        || (op.Evaluate? && op.autoP1 && op.priority == 1
            && Unlinked(s, op.tenantId, op.ticketId)))
  }

  /** The owners the call asks for: those named, else its caller, or those the rule finds. */
  predicate Names(op: Op, process: nat, technical: nat) {
    || (op.Create?
        && process == (if op.processOwner.Some? then op.processOwner.value else op.session.userId)
        && technical == (if op.technicalOwner.Some? then op.technicalOwner.value else op.session.userId))
    || (op.Evaluate? && Responsible(op.users, op.closedBy, process)
        && technical == (if op.assigneeId.Some? then op.assigneeId.value else process))
  }

  function TenantOf(op: Op): nat { if op.Evaluate? then op.tenantId else op.session.tenantId }

  predicate OpenedBy(r: Record, op: Op)
    requires op.Create? || op.Evaluate?
  {
    && Names(op, r.processOwner, r.technicalOwner)
    && r == Record(TenantOf(op), op.title, Draft, None, None, r.processOwner, r.technicalOwner, None)
  }

  /** An opened analysis is a draft with the owners its call names, linked to the ticket of the call. */
  lemma OpeningNamesOwners(s: State, op: Op)
    ensures Opens(s, op) ==>
              var s' := Step(s, op);
              && op.id !in s.records && op.id in s'.records && OpenedBy(s'.records[op.id], op)
              && s'.links == s.links + (if op.Evaluate? then {(op.id, op.ticketId)}
                                        else if op.primaryTicket.Some? then {(op.id, op.primaryTicket.value)} else {})
    ensures !Opens(s, op) && (op.Create? || op.Evaluate?) ==> Step(s, op) == s
  {
    GoesIff(s, op);
    if op.Evaluate? {
      FirstIsThere(op.users, ItManager);
      FirstIsThere(op.users, TeamLead);
      NoneLinkedIff(s, op.tenantId, op.ticketId);
    }
  }

  lemma NoneLinkedIff(s: State, tenantId: nat, ticketId: nat)
    ensures |LinkedTo(s, tenantId, ticketId)| == 0 <==> Unlinked(s, tenantId, ticketId)
  {
    var ids := LinkedTo(s, tenantId, ticketId);
    assert forall id :: id in ids <==> IsLinked(s, tenantId, id, ticketId);
    assert |ids| == 0 <==> ids == {};
  }

  // ---- What the calls tell about an analysis -------------------------------------------------------------

  datatype Act = Opening | Delegating | FindingRoot | FindingImmediate

  predicate Does(s: State, op: Op, act: Act) {
    match act
    case Opening => Opens(s, op)
    case Delegating => op.AssignDelegate? && Goes(s, op)
    case FindingRoot => op.Edit? && op.rootCause.Some? && Goes(s, op)
    case FindingImmediate => op.Edit? && op.immediateCause.Some? && Goes(s, op)
  }

  /** The last call of a run that does this to an analysis. */
  function LastCall(ops: seq<Op>, id: nat, act: Act): (call: Option<Op>)
    ensures call.Some? ==>
              match act
              case Opening => call.value.Create? || call.value.Evaluate?
              case Delegating => call.value.AssignDelegate?
              case _ => call.value.Edit?
  {
    if ops == [] then None
    else
      var init, last := ops[..|ops| - 1], ops[|ops| - 1];
      if last.id == id && Does(Run(EMPTY, init), last, act) then Some(last) else LastCall(init, id, act)
  }

  /** An analysis as its opening call, its last delegation and its last edits tell it, but for its status. */
  predicate Told(r: Record, ops: seq<Op>, id: nat) {
    var opening, delegation := LastCall(ops, id, Opening), LastCall(ops, id, Delegating);
    var root, immediate := LastCall(ops, id, FindingRoot), LastCall(ops, id, FindingImmediate);
    && opening.Some? && r.tenantId == TenantOf(opening.value) && r.title == opening.value.title
    && Names(opening.value, r.processOwner, r.technicalOwner)
    && r.delegateId == (if delegation.Some? then delegation.value.delegateId else None)
    && r.rootCause == (if root.Some? then root.value.rootCause else None)
    && r.immediateCause == (if immediate.Some? then immediate.value.immediateCause else None)
  }

  predicate AllTold(s: State, ops: seq<Op>, id: nat) {
    if id in s.records then Told(s.records[id], ops, id) else forall act :: LastCall(ops, id, act).None?
  }

  lemma LastCallStep(ops: seq<Op>, op: Op, id: nat, act: Act)
    ensures LastCall(ops + [op], id, act)
            == if op.id == id && Does(Run(EMPTY, ops), op, act) then Some(op) else LastCall(ops, id, act)
  {
    assert (ops + [op])[..|ops|] == ops;
  }

  /** What a call other than an opening does to the columns of an analysis. */
  lemma CallTells(s: State, op: Op, id: nat)
    requires id in s.records
    ensures id in Step(s, op).records
    ensures var r, r', own := s.records[id], Step(s, op).records[id], op.id == id;
            && r' == r.(status := r'.status,
                   delegateId := if own && Does(s, op, Delegating) then op.delegateId else r.delegateId,
                   rootCause := if own && Does(s, op, FindingRoot) then op.rootCause else r.rootCause,
                   immediateCause := if own && Does(s, op, FindingImmediate) then op.immediateCause
                                     else r.immediateCause)
    ensures !(op.id == id && Opens(s, op))
  {
    GoesIff(s, op);
    if op.id != id && Enabled(s, op) { OthersUntouched(s, op, id); }
  }

  lemma NewIsTold(s: State, ops: seq<Op>, op: Op, id: nat)
    requires s == Run(EMPTY, ops) && id !in s.records && AllTold(s, ops, id)
    ensures AllTold(Step(s, op), ops + [op], id)
  {
    OpeningNamesOwners(s, op);
    GoesIff(s, op);
    forall act
      ensures LastCall(ops + [op], id, act) == if op.id == id && act == Opening && Opens(s, op) then Some(op) else None
    {
      LastCallStep(ops, op, id, act);
    }
    NewOnlyIfOpened(s, op, id);
  }

  lemma NewOnlyIfOpened(s: State, op: Op, id: nat)
    requires id !in s.records
    ensures id in Step(s, op).records <==> op.id == id && Opens(s, op)
  {
    OpeningNamesOwners(s, op);
    GoesIff(s, op);
  }

  lemma OldIsTold(s: State, ops: seq<Op>, op: Op, id: nat)
    requires s == Run(EMPTY, ops) && id in s.records && AllTold(s, ops, id)
    ensures AllTold(Step(s, op), ops + [op], id)
  {
    CallTells(s, op, id);
    LastCallStep(ops, op, id, Opening);
    LastCallStep(ops, op, id, Delegating);
    LastCallStep(ops, op, id, FindingRoot);
    LastCallStep(ops, op, id, FindingImmediate);
  }

  /** In every run the calls tell every column of every analysis but its status. */
  lemma {:induction false} CallsTellAnalyses(ops: seq<Op>, id: nat)
    ensures AllTold(Run(EMPTY, ops), ops, id)
  {
    if ops != [] {
      var init, last := ops[..|ops| - 1], ops[|ops| - 1];
      assert ops == init + [last];
      CallsTellAnalyses(init, id);
      if id in Run(EMPTY, init).records {
        OldIsTold(Run(EMPTY, init), init, last, id);
      } else {
        NewIsTold(Run(EMPTY, init), init, last, id);
      }
    }
  }

  // ---- Whose decision an approval records --------------------------------------------------------------------

  /** A row after this user granted it. */
  function Granting(row: Approval, userId: nat): Approval { row.(approverId := userId, decision := Granted) }

  /**
   The process owner decides the first row, the technical owner the second; any other lead decides the first row that is
   open, and the second only when the first is decided.
   */
  function AfterDecision(r: Record, rows: seq<Approval>, userId: nat): seq<Approval>
    requires |rows| == 2
  {
    if userId == r.processOwner then [Granting(rows[0], userId), rows[1]]
    else if userId == r.technicalOwner then [rows[0], Granting(rows[1], userId)]
    else if rows[0].decision == Pending then [Granting(rows[0], userId), rows[1]]
    else [rows[0], Granting(rows[1], userId)]
  }

  /** In every run an accepted approval decides that one row, and approves the analysis when both rows are decided. */
  lemma ApprovalDecides(ops: seq<Op>, op: Op)
    requires op.Approve? && Goes(Run(EMPTY, ops), op)
    ensures var s := Run(EMPTY, ops);
            var r, s', rows := s.records[op.id], Step(s, op), Rows(s, op.id);
            && |rows| == 2 && rows[0].role == ProcessOwner && rows[1].role == TechnicalOwner
            && var after := AfterDecision(r, rows, op.session.userId);
               && Rows(s', op.id) == after
               && op.id in s'.records && s'.records[op.id] == r.(status :=
                    if after[0].decision == Granted && after[1].decision == Granted then Approved else InReview)
  {
    var s := Run(EMPTY, ops);
    RunInv(ops);
    assert InvFor(s, op.id, Ballots(ops, op.id));
    GoesIff(s, op);
    var rows := Rows(s, op.id);
    assert rows == [rows[0], rows[1]];
    FirstPendingTwo(rows[0], rows[1]);
    DecideTwo(rows[0], rows[1], ProcessOwner, op.session.userId);
    DecideTwo(rows[0], rows[1], TechnicalOwner, op.session.userId);
  }

  /** A submission opens one undecided row for each owner. */
  lemma SubmissionOpensRows(s: State, op: Op)
    requires op.Submit? && Goes(s, op)
    ensures var s', r := Step(s, op), s.records[op.id];
            && op.id in s'.records && s'.records[op.id] == r.(status := InReview)
            && Rows(s', op.id) == [Approval(ProcessOwner, r.processOwner, Pending),
                                   Approval(TechnicalOwner, r.technicalOwner, Pending)]
  {
    GoesIff(s, op);
  }
}
