/**
 The checklist of a task: adding, ticking and deleting items, the progress recomputed from them, and the
 status it may set. Percentages are exact, rounded half to even.
 */
module Checklist {
  import opened Common
  import opened NatArithmetic

  type Time = nat

  datatype Item = Item(id: nat, text: string, sortOrder: int, completed: bool, completedAt: Option<Time>)

  datatype Task = Task(tenantId: nat, createdBy: nat, assignees: set<nat>, status: string,
      progressOverride: Option<int>, completedAt: Option<Time>)

  const COMPLETED := "COMPLETED"

  datatype State = State(task: Task, items: seq<Item>)

  datatype Op =
    | Add(session: Session, id: nat, text: string, sortOrder: Option<int>)
    | Toggle(session: Session, id: nat, now: Time)
    | Delete(session: Session, id: nat, now: Time)

  // ---- Progress --------------------------------------------------------------------

  /** `Math.Round` of `a / b`: to the nearest integer, halves to the even one. */
  function RoundHalfEven(a: nat, b: nat): nat
    requires b > 0
  {
    var q, r := a / b, a % b;
    if 2 * r < b || (2 * r == b && q % 2 == 0) then q else q + 1
  }

  function Done(items: seq<Item>): nat {
    if items == [] then 0 else Done(items[..|items| - 1]) + if items[|items| - 1].completed then 1 else 0
  }

  function Progress(items: seq<Item>): nat
    requires items != []
  {
    RoundHalfEven(100 * Done(items), |items|)
  }

  /** The progress a task is shown with. */
  function Shown(s: State): int {
    if s.items != [] then Progress(s.items) else if s.task.progressOverride.Some? then s.task.progressOverride.value
        else 0
  }

  // ---- Calls --------------------------------------------------------------------------

  /** Why a caller does not get at the task, if so. */
  function AccessError(task: Task, session: Session): Option<Error> {
    if task.tenantId != session.tenantId then Some(NotFound)
    else if IsLead(session.role) || task.createdBy == session.userId || session.userId in task.assignees then None
    else Some(Forbidden)
  }

  function Find(items: seq<Item>, id: nat): Option<Item> {
    if items == [] then None else if items[0].id == id then Some(items[0]) else Find(items[1..], id)
  }

  /** Every row with the identifier is set. */
  function SetItem(items: seq<Item>, id: nat, completed: bool, at: Option<Time>): seq<Item> {
    if items == [] then []
    else
      var last := items[|items| - 1];
      SetItem(items[..|items| - 1], id, completed, at)
      + [if last.id == id then last.(completed := completed, completedAt := at) else last]
  }

  /** The items after a tick of one that is there. */
  function Ticked(items: seq<Item>, id: nat, now: Time): seq<Item>
    requires Find(items, id).Some?
  {
    var completed := !Find(items, id).value.completed;
    SetItem(items, id, completed, if completed then Some(now) else None)
  }

  function Without(items: seq<Item>, id: nat): seq<Item> {
    if items == [] then []
    else Without(items[..|items| - 1], id) + if items[|items| - 1].id == id then [] else [items[|items| - 1]]
  }

  function MaxOrder(items: seq<Item>): int {
    if items == [] then -1
    else
      var rest, last := MaxOrder(items[..|items| - 1]), items[|items| - 1].sortOrder;
      if |items| == 1 || last > rest then last else rest
  }

  /** The stored progress follows the items, and 100 completes the task; an empty list changes nothing. */
  function Recomputed(s: State, now: Time): State {
    if s.items == [] then s
    else
      var progress := Progress(s.items);
      if progress == 100 then s.(task := s.task.(progressOverride := Some(100), status := COMPLETED,
          completedAt := Some(now)))
      else s.(task := s.task.(progressOverride := Some(progress)))
  }

  /** The state and answer of one call. */
  function Apply(s: State, op: Op): (State, Result<()>) {
    var denied := AccessError(s.task, op.session);
    if denied.Some? then (s, Err(denied.value))
    else
      match op
      case Add(_, id, text, sortOrder) =>
        var order := if sortOrder.Some? then sortOrder.value else MaxOrder(s.items) + 1;
        (s.(items := s.items + [Item(id, text, order, false, None)]), Ok(()))
      case Toggle(_, id, now) =>
        if Find(s.items, id).None? then (s, Err(NotFound))
        else (Recomputed(s.(items := Ticked(s.items, id, now)), now), Ok(()))
      case Delete(_, id, now) => (Recomputed(s.(items := Without(s.items, id)), now), Ok(()))
  }

  function Run(s: State, ops: seq<Op>): State {
    if ops == [] then s else Apply(Run(s, ops[..|ops| - 1]), ops[|ops| - 1]).0
  }

  class TaskService {
    var task: Task
    var items: seq<Item>

    constructor (task: Task)
      ensures Snapshot() == State(task, [])
    {
      this.task, items := task, [];
    }

    function Snapshot(): State
      reads this
    {
      State(task, items)
    }

    method AddChecklistItem(session: Session, id: nat, text: string, sortOrder: Option<int>) returns (r: Result<()>)
      modifies this
      ensures (Snapshot(), r) == Apply(old(Snapshot()), Add(session, id, text, sortOrder))
    {
      var denied := AccessError(task, session);
      if denied.Some? { return Err(denied.value); }
      var maxOrder := MaxOrder(items);
      var order := if sortOrder.Some? then sortOrder.value else maxOrder + 1;
      items := items + [Item(id, text, order, false, None)];
      r := Ok(());
    }

    method ToggleChecklistItem(session: Session, id: nat, now: Time) returns (r: Result<()>)
      modifies this
      ensures (Snapshot(), r) == Apply(old(Snapshot()), Toggle(session, id, now))
    {
      var denied := AccessError(task, session);
      if denied.Some? { return Err(denied.value); }
      var item := Find(items, id);
      if item.None? { return Err(NotFound); }
      var nowCompleted := !item.value.completed;
      items := SetItem(items, id, nowCompleted, if nowCompleted then Some(now) else None);
      RecomputeProgress(now);
      r := Ok(());
    }

    method DeleteChecklistItem(session: Session, id: nat, now: Time) returns (r: Result<()>)
      modifies this
      ensures (Snapshot(), r) == Apply(old(Snapshot()), Delete(session, id, now))
    {
      var denied := AccessError(task, session);
      if denied.Some? { return Err(denied.value); }
      items := Without(items, id);
      RecomputeProgress(now);
      r := Ok(());
    }

    method RecomputeProgress(now: Time)
      modifies this
      ensures Snapshot() == Recomputed(old(Snapshot()), now)
    {
      if |items| == 0 { return; }
      var completed := Done(items);
      var progress := RoundHalfEven(100 * completed, |items|);
      if progress == 100 {
        task := task.(status := COMPLETED, completedAt := Some(now));
      }
      task := task.(progressOverride := Some(progress));
    }
  }

  // ---- What the percentage means ------------------------------------------------------------

  lemma DivisionBounds(a: nat, b: nat)
    requires b > 0
    ensures Times(b, a / b) <= a < Times(b, a / b) + b && a % b == a - Times(b, a / b)
  {
  }

  /** The rounded quotient is within a half of the exact one. */
  lemma RoundIsNearest(a: nat, b: nat)
    requires b > 0
    ensures 2 * a - b <= 2 * Times(b, RoundHalfEven(a, b)) <= 2 * a + b
  {
    DivisionBounds(a, b);
    TimesStep(b, a / b);
  }

  /** Rounding `a / b` gives at least `n` exactly when `a / b` is above `n - 1/2`, or on it with `n` even. */
  lemma RoundAtLeast(a: nat, b: nat, n: nat)
    requires b > 0 && n > 0
    ensures RoundHalfEven(a, b) >= n
            <==> 2 * a > 2 * Times(b, n) - b || (2 * a == 2 * Times(b, n) - b && n % 2 == 0)
  {
    var q := a / b;
    DivisionBounds(a, b);
    TimesStep(b, q);
    if q > n { TimesOrder(b, q, n); }
    if q + 1 < n { TimesOrder(b, n, q + 1); }
  }

  lemma {:induction false} DoneRange(items: seq<Item>)
    ensures 0 <= Done(items) <= |items|
    ensures Done(items) == |items| <==> forall i :: 0 <= i < |items| ==> items[i].completed
  {
    if items != [] {
      var init := items[..|items| - 1];
      DoneRange(init);
      assert (forall i :: 0 <= i < |items| ==> items[i].completed)
        <==> (forall i :: 0 <= i < |init| ==> init[i].completed) && items[|items| - 1].completed
      by {
        assert forall i :: 0 <= i < |init| ==> init[i] == items[i];
      }
    }
  }

  predicate AllDone(items: seq<Item>) { forall i :: 0 <= i < |items| ==> items[i].completed }

  predicate NearlyAllDone(items: seq<Item>) { 200 * Done(items) >= 199 * |items| }

  /** Progress lies in 0..100, and is 100 exactly when at least 99.5 percent of the items are done. */
  lemma ProgressRange(items: seq<Item>)
    requires items != []
    ensures 0 <= Progress(items) <= 100
    ensures Progress(items) == 100 <==> NearlyAllDone(items)
    ensures Progress(items) == 0 <==> 200 * Done(items) <= |items|
  {
    DoneRange(items);
    RoundAtLeast(100 * Done(items), |items|, 101);
    RoundAtLeast(100 * Done(items), |items|, 100);
    RoundAtLeast(100 * Done(items), |items|, 1);
  }

  /** Progress is within half a percent of the exact share of finished items. */
  lemma ProgressIsNearest(items: seq<Item>)
    requires items != []
    ensures 200 * Done(items) - |items| <= 2 * Times(|items|, Progress(items)) <= 200 * Done(items) + |items|
  {
    RoundIsNearest(100 * Done(items), |items|);
  }

  /** More finished items of as many never show less progress. */
  lemma ProgressMonotone(a: seq<Item>, b: seq<Item>)
    requires a != [] && |a| == |b| && Done(a) <= Done(b)
    ensures Progress(a) <= Progress(b)
  {
    var n := Progress(a);
    if n > 0 {
      RoundAtLeast(100 * Done(a), |a|, n);
      RoundAtLeast(100 * Done(b), |a|, n);
    }
  }

  /** With fewer than 200 items, 100 percent means all of them. */
  lemma ShortListsAreExact(items: seq<Item>)
    requires 0 < |items| < 200
    ensures Progress(items) == 100 <==> AllDone(items)
  {
    ProgressRange(items);
    DoneRange(items);
  }

  /** A list of `n` items of which the first is open and the others are done. */
  function OneOpen(n: nat): (items: seq<Item>)
    requires n > 0
    ensures |items| == n && Done(items) == n - 1 && !items[0].completed
  {
    if n == 1 then [Item(0, "", 0, false, None)]
    else
      var longer := OneOpen(n - 1) + [Item(n - 1, "", 0, true, Some(0))];
      assert longer[..n - 1] == OneOpen(n - 1);
      longer
  }

  /** From 200 items on the claim fails: a list with an open item counts as 100 percent. */
  lemma LongListsAreNot(n: nat)
    requires n >= 200
    ensures Progress(OneOpen(n)) == 100 && !AllDone(OneOpen(n))
  {
    ProgressRange(OneOpen(n));
  }

  // ---- Stored against shown -------------------------------------------------------------------

  /** A tick or a deletion that leaves items leaves the stored progress equal to the shown one. */
  lemma StoredIsShown(s: State, op: Op)
    requires !op.Add? && Apply(s, op).1.Ok? && Apply(s, op).0.items != []
    ensures var s' := Apply(s, op).0;
            s'.task.progressOverride == Some(Shown(s')) && 0 <= Shown(s') <= 100
  {
    ProgressRange(Apply(s, op).0.items);
  }

  /** Deleting the last item leaves the stored progress, which is then the one shown. */
  lemma LastDeletionKeepsProgress(s: State, op: Op)
    requires op.Delete? && Apply(s, op).1.Ok? && Apply(s, op).0.items == []
    ensures Apply(s, op).0.task == s.task
    ensures s.task.progressOverride.Some? ==> Shown(Apply(s, op).0) == s.task.progressOverride.value
  {
  }

  lemma {:induction false} SetItemAt(items: seq<Item>, id: nat, completed: bool, at: Option<Time>)
    ensures |SetItem(items, id, completed, at)| == |items|
    ensures forall i :: 0 <= i < |items| ==>
              SetItem(items, id, completed, at)[i]
              == if items[i].id == id then items[i].(completed := completed, completedAt := at) else items[i]
  {
    if items != [] { SetItemAt(items[..|items| - 1], id, completed, at); }
  }

  lemma {:induction false} FindIsThere(items: seq<Item>, id: nat)
    ensures Find(items, id).None? <==> forall i :: 0 <= i < |items| ==> items[i].id != id
    ensures Find(items, id).Some? ==> Find(items, id).value in items && Find(items, id).value.id == id
  {
    if items != [] {
      FindIsThere(items[1..], id);
      assert items == [items[0]] + items[1..];
    }
  }

  predicate Distinct(items: seq<Item>) { forall i, j :: 0 <= i < j < |items| ==> items[i].id != items[j].id }

  lemma TickFlips(items: seq<Item>, id: nat, now: Time)
    requires Distinct(items) && Find(items, id).Some?
    ensures var ticked := Ticked(items, id, now);
            && |ticked| == |items| && Distinct(ticked) && Find(ticked, id).Some?
            && forall i :: 0 <= i < |items| ==>
                 ticked[i].id == items[i].id && ticked[i].completed == if items[i].id == id then !items[i].completed
                     else items[i].completed
  {
    var completed := !Find(items, id).value.completed;
    SetItemAt(items, id, completed, if completed then Some(now) else None);
    FindIsThere(items, id);
    FindIsThere(Ticked(items, id, now), id);
    var k :| 0 <= k < |items| && items[k] == Find(items, id).value;
    assert Ticked(items, id, now)[k].id == id;
  }

  /** Ticking an item twice restores every mark. */
  lemma TickTwice(items: seq<Item>, id: nat, t1: Time, t2: Time)
    requires Distinct(items) && Find(items, id).Some?
    ensures Find(Ticked(items, id, t1), id).Some?
    ensures var twice := Ticked(Ticked(items, id, t1), id, t2);
            |twice| == |items|
            && forall i :: 0 <= i < |items| ==> twice[i].id == items[i].id && twice[i].completed == items[i].completed
  {
    TickFlips(items, id, t1);
    TickFlips(Ticked(items, id, t1), id, t2);
  }

  // ---- Completion over whole runs -----------------------------------------------------------------

  /** A call that completes the task: a tick or a deletion that goes through and leaves at least 99.5 percent done. */
  predicate Completes(s: State, op: Op) {
    && !op.Add? && Apply(s, op).1.Ok? && Apply(s, op).0.items != [] && NearlyAllDone(Apply(s, op).0.items)
  }

  lemma StepCompletion(s: State, op: Op)
    ensures Apply(s, op).0.task.status == COMPLETED <==> s.task.status == COMPLETED || Completes(s, op)
    ensures var t, t' := s.task, Apply(s, op).0.task;
            && (!Completes(s, op) ==> t'.status == t.status && t'.completedAt == t.completedAt)
            && t'.(status := t.status, progressOverride := t.progressOverride, completedAt := t.completedAt) == t
  {
    if Apply(s, op).0.items != [] { ProgressRange(Apply(s, op).0.items); }
  }

  predicate SomeCompletes(s: State, ops: seq<Op>) {
    ops != [] && (SomeCompletes(s, ops[..|ops| - 1]) || Completes(Run(s, ops[..|ops| - 1]), ops[|ops| - 1]))
  }

  /**
   Over any run of checklist calls a task is completed at the end exactly when it was at the start or
   some call left the list at least 99.5 percent done; in particular no call ever undoes COMPLETED.
   */
  lemma {:induction false} CompletedIff(s: State, ops: seq<Op>)
    ensures Run(s, ops).task.status == COMPLETED <==> s.task.status == COMPLETED || SomeCompletes(s, ops)
  {
    if ops != [] {
      CompletedIff(s, ops[..|ops| - 1]);
      StepCompletion(Run(s, ops[..|ops| - 1]), ops[|ops| - 1]);
    }
  }

  /** Without an explicit order a new item goes after all the others. */
  lemma AddedGoesLast(s: State, op: Op, i: nat)
    requires op.Add? && op.sortOrder.None? && Apply(s, op).1.Ok? && i < |s.items|
    ensures Apply(s, op).0.items[|s.items|].sortOrder > s.items[i].sortOrder
  {
    MaxOrderIsMax(s.items, i);
  }

  lemma {:induction false} MaxOrderIsMax(items: seq<Item>, i: nat)
    requires i < |items|
    ensures MaxOrder(items) >= items[i].sortOrder
  {
    if i < |items| - 1 { MaxOrderIsMax(items[..|items| - 1], i); }
  }

  // ---- What each call does to the items -------------------------------------------------------------

  /** The call goes through: its caller leads, created the task or is assigned to it, and a ticked item is there. */
  predicate Goes(s: State, op: Op) {
    && s.task.tenantId == op.session.tenantId
    && (op.session.userId == s.task.createdBy || op.session.userId in s.task.assignees
        || (op.session.role != Engineer && op.session.role != Executive))
    && (op.Toggle? ==> exists i :: 0 <= i < |s.items| && s.items[i].id == op.id)
  }

  lemma GoesIff(s: State, op: Op)
    ensures Apply(s, op).1.Ok? <==> Goes(s, op)
    ensures Apply(s, op).1.Err? ==> Apply(s, op).0 == s
    ensures Apply(s, op).1 == Err(Forbidden) ==> s.task.tenantId == op.session.tenantId
  {
    FindIsThere(s.items, op.id);
  }

  lemma {:induction false} WithoutAbsent(items: seq<Item>, id: nat)
    requires forall i :: 0 <= i < |items| ==> items[i].id != id
    ensures Without(items, id) == items
  {
    if items != [] { WithoutAbsent(items[..|items| - 1], id); }
  }

  lemma {:induction false} WithoutAt(items: seq<Item>, k: nat)
    requires Distinct(items) && k < |items|
    ensures Without(items, items[k].id) == items[..k] + items[k + 1..]
  {
    var n := |items| - 1;
    var init := items[..n];
    if k == n {
      WithoutAbsent(init, items[k].id);
      assert items[..k] + items[k + 1..] == init;
    } else {
      WithoutAt(init, k);
      assert init[k] == items[k];
      assert init[..k] == items[..k] && init[k + 1..] + [items[n]] == items[k + 1..];
    }
  }

  /** A deletion takes out the one item with the identifier and keeps the others in their order. */
  lemma DeletionRemovesOne(s: State, op: Op, k: nat)
    requires op.Delete? && Goes(s, op) && Distinct(s.items) && k < |s.items| && s.items[k].id == op.id
    ensures Apply(s, op).0.items == s.items[..k] + s.items[k + 1..]
  {
    GoesIff(s, op);
    WithoutAt(s.items, k);
  }

  /** A deletion of an item that is not there takes out nothing. */
  lemma DeletionOfNone(s: State, op: Op)
    requires op.Delete? && forall i :: 0 <= i < |s.items| ==> s.items[i].id != op.id
    ensures Apply(s, op).0.items == s.items
  {
    WithoutAbsent(s.items, op.id);
  }

  /** An item as a tick of it leaves it, dated if it is now done. */
  function Turned(item: Item, now: Time): Item {
    if item.completed then item.(completed := false, completedAt := None)
    else item.(completed := true, completedAt := Some(now))
  }

  predicate OnlyAt(items: seq<Item>, k: nat, id: nat) {
    k < |items| && items[k].id == id && forall i :: 0 <= i < |items| && i != k ==> items[i].id != id
  }

  lemma {:induction false} FindAt(items: seq<Item>, k: nat, id: nat)
    requires OnlyAt(items, k, id)
    ensures Find(items, id) == Some(items[k])
  {
    if k > 0 {
      assert items[0].id != id;
      assert forall i :: 0 <= i < |items| - 1 ==> items[1..][i] == items[i + 1];
      FindAt(items[1..], k - 1, id);
    }
  }

  lemma SetAt(items: seq<Item>, k: nat, id: nat, completed: bool, at: Option<Time>)
    requires OnlyAt(items, k, id)
    ensures SetItem(items, id, completed, at) == items[k := items[k].(completed := completed, completedAt := at)]
  {
    SetItemAt(items, id, completed, at);
  }

  /** A tick turns the one item with the identifier and touches no other. */
  lemma TickTurnsOne(items: seq<Item>, k: nat, now: Time)
    requires Distinct(items) && k < |items|
    ensures Find(items, items[k].id).Some?
    ensures Ticked(items, items[k].id, now) == items[k := Turned(items[k], now)]
  {
    assert OnlyAt(items, k, items[k].id);
    FindAt(items, k, items[k].id);
    var completed := !items[k].completed;
    SetAt(items, k, items[k].id, completed, if completed then Some(now) else None);
  }

  lemma TickCallTurnsOne(s: State, op: Op)
    requires op.Toggle? && Goes(s, op) && Distinct(s.items)
    ensures exists k :: 0 <= k < |s.items| && s.items[k].id == op.id
              && Apply(s, op).0.items == s.items[k := Turned(s.items[k], op.now)]
  {
    GoesIff(s, op);
    var k :| 0 <= k < |s.items| && s.items[k].id == op.id;
    TickTurnsOne(s.items, k, op.now);
  }

  /** The time of the last call of a run that completed the task. */
  function CompletedBy(s: State, ops: seq<Op>): Option<Time> {
    if ops == [] then None
    else
      var init, last := ops[..|ops| - 1], ops[|ops| - 1];
      if Completes(Run(s, init), last) then Some(last.now) else CompletedBy(s, init)
  }

  /** Over any run the task is dated by the last call that completed it. */
  lemma {:induction false} CompletionIsDated(s: State, ops: seq<Op>)
    ensures Run(s, ops).task.completedAt == OrElse(CompletedBy(s, ops), s.task.completedAt)
  {
    if ops != [] {
      var before, last := Run(s, ops[..|ops| - 1]), ops[|ops| - 1];
      CompletionIsDated(s, ops[..|ops| - 1]);
      StepCompletion(before, last);
      if Completes(before, last) { ProgressRange(Apply(before, last).0.items); }
    }
  }
}
