/**
 Refresh-token rotation (compare section 6 of RFC 6749). Every repository call
 is one atomic step, so concurrent logins, refreshes and logouts interleave
 between the calls. A row's id is its position, the order in which rows were
 inserted, and a newly minted hash is one no row has.
 */
module RefreshTokens {
  import opened Common

  type Time = nat

  datatype Row = Row(
    userId: nat, tokenHash: nat, expiresAt: Time, createdAt: Time,
    lastUsedAt: Option<Time>, revokedAt: Option<Time>, replacedBy: Option<nat>)

  // ---- The repository -------------------------------------------------------------

  function Created(rows: seq<Row>, userId: nat, tokenHash: nat, expiresAt: Time, now: Time): seq<Row> {
    rows + [Row(userId, tokenHash, expiresAt, now, None, None, None)]
  }

  predicate IsActive(row: Row, now: Time) {
    row.revokedAt.None? && row.expiresAt > now
  }

  /** The row a lookup by hash returns: unrevoked and unexpired. */
  function FindActive(rows: seq<Row>, tokenHash: nat, now: Time): (found: Option<nat>)
    ensures found.Some? ==>
              && found.value < |rows| && rows[found.value].tokenHash == tokenHash
              && rows[found.value].revokedAt.None? && now < rows[found.value].expiresAt
    ensures found.None? ==>
              forall r :: r in rows && r.tokenHash == tokenHash ==> r.revokedAt.Some? || r.expiresAt <= now
  {
    if rows == [] then None
    else
      var last := |rows| - 1;
      if rows[last].tokenHash == tokenHash && IsActive(rows[last], now) then Some(last)
      else FindActive(rows[..last], tokenHash, now)
  }

  function Touched(rows: seq<Row>, id: nat, now: Time): seq<Row> {
    if id < |rows| then rows[id := rows[id].(lastUsedAt := Some(now))] else rows
  }

  /** Only an unrevoked row is written, and an absent successor leaves the column as it is. */
  function Revoked(rows: seq<Row>, id: nat, replacedBy: Option<nat>, now: Time): seq<Row> {
    if id < |rows| && rows[id].revokedAt.None? then
      rows[id := rows[id].(revokedAt := Some(now), replacedBy := if replacedBy.Some? then replacedBy
          else rows[id].replacedBy)]
    else rows
  }

  class TokenRepository {
    var rows: seq<Row>

    constructor ()
      ensures rows == []
    {
      rows := [];
    }

    method Create(userId: nat, tokenHash: nat, expiresAt: Time, now: Time)
      modifies this
      ensures rows == Created(old(rows), userId, tokenHash, expiresAt, now)
    {
      rows := rows + [Row(userId, tokenHash, expiresAt, now, None, None, None)];
    }

    method GetActiveByTokenHash(tokenHash: nat, now: Time) returns (found: Option<nat>)
      ensures found == FindActive(rows, tokenHash, now)
    {
      var i := |rows|;
      assert rows[..i] == rows;
      while i > 0
        invariant 0 <= i <= |rows|
        invariant FindActive(rows, tokenHash, now) == FindActive(rows[..i], tokenHash, now)
      {
        i := i - 1;
        assert rows[..i + 1][..i] == rows[..i];
        if rows[i].tokenHash == tokenHash && rows[i].revokedAt.None? && rows[i].expiresAt > now {
          return Some(i);
        }
      }
      return None;
    }

    method Touch(id: nat, now: Time)
      modifies this
      ensures rows == Touched(old(rows), id, now)
    {
      if id < |rows| {
        rows := rows[id := rows[id].(lastUsedAt := Some(now))];
      }
    }

    method Revoke(id: nat, replacedBy: Option<nat>, now: Time)
      modifies this
      ensures rows == Revoked(old(rows), id, replacedBy, now)
    {
      if id < |rows| && rows[id].revokedAt == None {
        var successor := if replacedBy.Some? then replacedBy else rows[id].replacedBy;
        rows := rows[id := rows[id].(revokedAt := Some(now), replacedBy := successor)];
      }
    }
  }

  // ---- The service, one call at a time ------------------------------------------------

  /** The clock readings of one refresh call, in order. */
  datatype Clock = Clock(read: Time, issue: Time, reread: Time, touch: Time, revoke: Time)

  datatype Issue = Issue(tokenHash: nat, lifetime: Time)

  /** The rows after one whole refresh call, and the id of the token it returned. */
  function RefreshRows(rows: seq<Row>, users: set<nat>, tokenHash: nat, minted: Issue, clock: Clock): (seq<Row>,
          Option<nat>) {
    match FindActive(rows, tokenHash, clock.read)
    case None => (rows, None)
    case Some(existing) =>
      if rows[existing].userId !in users then (Revoked(rows, existing, None, clock.revoke), None)
      else
        var next := |rows|;
        var issued := Created(rows, rows[existing].userId, minted.tokenHash, clock.issue + minted.lifetime,
            clock.issue);
        var nextRecord := FindActive(issued, minted.tokenHash, clock.reread);
        (Revoked(Touched(issued, existing, clock.touch), existing, nextRecord, clock.revoke), Some(next))
  }

  class JwtTokenService {
    const tokens: TokenRepository

    constructor (tokens: TokenRepository)
      ensures this.tokens == tokens
    {
      this.tokens := tokens;
    }

    method IssueToken(userId: nat, minted: Issue, now: Time)
      modifies tokens
      ensures tokens.rows == Created(old(tokens.rows), userId, minted.tokenHash, now + minted.lifetime, now)
    {
      tokens.Create(userId, minted.tokenHash, now + minted.lifetime, now);
    }

    method Refresh(tokenHash: nat, users: set<nat>, minted: Issue, clock: Clock) returns (issued: Option<nat>)
      modifies tokens
      ensures (tokens.rows, issued) == RefreshRows(old(tokens.rows), users, tokenHash, minted, clock)
    {
      var existing := tokens.GetActiveByTokenHash(tokenHash, clock.read);
      if existing == None { return None; }
      var userId := tokens.rows[existing.value].userId;
      if userId !in users {
        tokens.Revoke(existing.value, None, clock.revoke);
        return None;
      }
      issued := Some(|tokens.rows|);
      IssueToken(userId, minted, clock.issue);
      var nextRecord := tokens.GetActiveByTokenHash(minted.tokenHash, clock.reread);
      tokens.Touch(existing.value, clock.touch);
      tokens.Revoke(existing.value, nextRecord, clock.revoke);
    }

    method RevokeRefreshToken(tokenHash: nat, now: Time)
      modifies tokens
      ensures tokens.rows ==
              match FindActive(old(tokens.rows), tokenHash, now)
              case None => old(tokens.rows)
              case Some(id) => Revoked(old(tokens.rows), id, None, now)
    {
      var existing := tokens.GetActiveByTokenHash(tokenHash, now);
      if existing.Some? {
        tokens.Revoke(existing.value, None, now);
      }
    }
  }

  // ---- The service, interleaved -----------------------------------------------------------

  /** Where a call stands between its repository steps. */
  datatype Call =
    | Refreshing(tokenHash: nat)
    | Found(existing: nat)
    | Orphaned(existing: nat)
    | Issuing(existing: nat)
    | Issued(existing: nat, next: nat)
    | Reread(existing: nat, next: nat, nextRecord: Option<nat>)
    | Marked(existing: nat, next: nat, nextRecord: Option<nat>)
    | Refreshed(existing: nat, next: nat)
    | Dropped(existing: nat)
    | Rejected
    | LoggingOut(tokenHash: nat)
    | LogoutFound(existing: nat)
    | LoggedOut(spent: Option<nat>)

  datatype State = State(now: Time, users: set<nat>, rows: seq<Row>, calls: seq<Call>)

  datatype Event =
    | Tick(passed: nat)
    | SetUsers(users: set<nat>)
    | Login(userId: nat, minted: Issue)
    | StartRefresh(tokenHash: nat)
    | StartLogout(tokenHash: nat)
    | Advance(call: nat, minted: Issue)

  predicate IsFreshHash(rows: seq<Row>, tokenHash: nat) {
    forall r :: r in rows ==> r.tokenHash != tokenHash
  }

  function AdvanceCall(s: State, c: Call, minted: Issue): (seq<Row>, Call) {
    match c
    case Refreshing(tokenHash) =>
      (s.rows, match FindActive(s.rows, tokenHash, s.now) case None => Rejected case Some(id) => Found(id))
    case Found(existing) =>
      (s.rows, if existing < |s.rows| && s.rows[existing].userId in s.users then Issuing(existing)
          else Orphaned(existing))
    case Orphaned(existing) => (Revoked(s.rows, existing, None, s.now), Dropped(existing))
    case Issuing(existing) =>
      if existing < |s.rows| && IsFreshHash(s.rows, minted.tokenHash) then
        (Created(s.rows, s.rows[existing].userId, minted.tokenHash, s.now + minted.lifetime, s.now),
            Issued(existing, |s.rows|))
      else (s.rows, c)
    case Issued(existing, next) =>
      (s.rows, Reread(existing, next, if next < |s.rows| then FindActive(s.rows, s.rows[next].tokenHash, s.now)
          else None))
    case Reread(existing, next, nextRecord) => (Touched(s.rows, existing, s.now), Marked(existing, next, nextRecord))
    case Marked(existing, next, nextRecord) => (Revoked(s.rows, existing, nextRecord, s.now), Refreshed(existing, next))
    case LoggingOut(tokenHash) =>
      (s.rows, match FindActive(s.rows, tokenHash, s.now) case None => LoggedOut(None) case Some(id) => LogoutFound(id))
    case LogoutFound(existing) => (Revoked(s.rows, existing, None, s.now), LoggedOut(Some(existing)))
    case _ => (s.rows, c)
  }

  function Step(s: State, e: Event): State {
    match e
    case Tick(passed) => s.(now := s.now + passed)
    case SetUsers(users) => s.(users := users)
    case Login(userId, minted) =>
      if IsFreshHash(s.rows, minted.tokenHash) then
        s.(rows := Created(s.rows, userId, minted.tokenHash, s.now + minted.lifetime, s.now))
      else s
    case StartRefresh(tokenHash) => s.(calls := s.calls + [Refreshing(tokenHash)])
    case StartLogout(tokenHash) => s.(calls := s.calls + [LoggingOut(tokenHash)])
    case Advance(call, minted) =>
      if call < |s.calls| then
        var (rows, c) := AdvanceCall(s, s.calls[call], minted);
        s.(rows := rows, calls := s.calls[call := c])
      else s
  }

  function Run(s: State, events: seq<Event>): State
    decreases |events|
  {
    if events == [] then s else Run(Step(s, events[0]), events[1..])
  }

  /** `later` keeps every row of `earlier`: owner, hash and dates for good, revocation and successor once revoked. */
  predicate Keeps(earlier: seq<Row>, later: seq<Row>) {
    && |earlier| <= |later|
    && forall i :: 0 <= i < |earlier| ==>
         && later[i].userId == earlier[i].userId
         && later[i].tokenHash == earlier[i].tokenHash
         && later[i].createdAt == earlier[i].createdAt
         && later[i].expiresAt == earlier[i].expiresAt
         && (earlier[i].revokedAt.Some? ==>
               later[i].revokedAt == earlier[i].revokedAt && later[i].replacedBy == earlier[i].replacedBy)
  }

  // ---- The invariant --------------------------------------------------------------------------

  /** `j` may follow `i` in a rotation: younger, and of the same user. */
  predicate MayFollow(rows: seq<Row>, i: nat, j: nat) {
    i < j < |rows| && rows[i].userId == rows[j].userId && rows[i].createdAt <= rows[j].createdAt
  }

  predicate RowsInv(rows: seq<Row>, now: Time) {
    && (forall i :: 0 <= i < |rows| ==> rows[i].createdAt <= now)
    && (forall i, j :: 0 <= i < j < |rows| ==> rows[i].createdAt <= rows[j].createdAt)
    && (forall i, j :: 0 <= i < j < |rows| ==> rows[i].tokenHash != rows[j].tokenHash)
    && (forall i :: 0 <= i < |rows| && rows[i].replacedBy.Some? ==>
          rows[i].revokedAt.Some? && MayFollow(rows, i, rows[i].replacedBy.value))
    && (forall i, j :: 0 <= i < j < |rows| && rows[i].replacedBy.Some? ==> rows[i].replacedBy != rows[j].replacedBy)
  }

  /** The token a refresh call has issued. */
  function IssuedBy(c: Call): Option<nat> {
    match c
    case Issued(_, next) => Some(next)
    case Reread(_, next, _) => Some(next)
    case Marked(_, next, _) => Some(next)
    case Refreshed(_, next) => Some(next)
    case _ => None
  }

  predicate Unlinked(rows: seq<Row>, next: nat) {
    forall i :: 0 <= i < |rows| ==> rows[i].replacedBy != Some(next)
  }

  predicate CallInv(rows: seq<Row>, c: Call) {
    match c
    case Found(existing) => existing < |rows|
    case Orphaned(existing) => existing < |rows|
    case Issuing(existing) => existing < |rows|
    case Issued(existing, next) => MayFollow(rows, existing, next) && Unlinked(rows, next)
    case Reread(existing, next, nextRecord) =>
      MayFollow(rows, existing, next) && Unlinked(rows, next) && (nextRecord == None || nextRecord == Some(next))
    case Marked(existing, next, nextRecord) =>
      MayFollow(rows, existing, next) && Unlinked(rows, next) && (nextRecord == None || nextRecord == Some(next))
    case Refreshed(existing, next) => MayFollow(rows, existing, next) && rows[existing].revokedAt.Some?
    case LogoutFound(existing) => existing < |rows|
    case Dropped(existing) => existing < |rows| && rows[existing].revokedAt.Some?
    case LoggedOut(spent) => spent.Some? ==> spent.value < |rows| && rows[spent.value].revokedAt.Some?
    case _ => true
  }

  predicate CallsInv(rows: seq<Row>, calls: seq<Call>) {
    forall k :: 0 <= k < |calls| ==> CallInv(rows, calls[k])
  }

  /** No two calls have issued the same token. */
  predicate IssuedDistinct(calls: seq<Call>) {
    forall k, m :: 0 <= k < m < |calls| && IssuedBy(calls[k]).Some? ==> IssuedBy(calls[k]) != IssuedBy(calls[m])
  }

  predicate Inv(s: State) {
    RowsInv(s.rows, s.now) && CallsInv(s.rows, s.calls) && IssuedDistinct(s.calls)
  }

  const START: State := State(0, {}, [], [])

  /** A hash names one row, so a lookup by a row's own hash finds that row or none. */
  lemma FindOwn(rows: seq<Row>, now: Time, at: Time, i: nat)
    requires RowsInv(rows, now) && i < |rows|
    ensures FindActive(rows, rows[i].tokenHash, at) == if IsActive(rows[i], at) then Some(i) else None
  {
    var found := FindActive(rows, rows[i].tokenHash, at);
    if IsActive(rows[i], at) {
      assert rows[i] in rows;
    }
  }

  lemma CreatedInv(rows: seq<Row>, now: Time, userId: nat, minted: Issue)
    requires RowsInv(rows, now) && IsFreshHash(rows, minted.tokenHash)
    ensures RowsInv(Created(rows, userId, minted.tokenHash, now + minted.lifetime, now), now)
  {
    var after := Created(rows, userId, minted.tokenHash, now + minted.lifetime, now);
    assert forall i :: 0 <= i < |rows| ==> after[i] == rows[i] && rows[i] in rows;
    assert after[|rows|].replacedBy == None && after[|rows|].createdAt == now;
    forall i | 0 <= i < |after| && after[i].replacedBy.Some?
      ensures after[i].revokedAt.Some? && MayFollow(after, i, after[i].replacedBy.value)
    {
      assert MayFollow(rows, i, rows[i].replacedBy.value);
    }
  }

  /** A call stays sound over rows that keep owners, dates and revocations, as long as nobody is linked to its token. */
  lemma CallSurvives(before: seq<Row>, after: seq<Row>, c: Call)
    requires Keeps(before, after) && CallInv(before, c)
    requires IssuedBy(c).Some? && !c.Refreshed? ==> Unlinked(after, IssuedBy(c).value)
    ensures CallInv(after, c)
  {
  }

  /** A new row leaves every call as sound as it was. */
  lemma CreatedCalls(rows: seq<Row>, now: Time, userId: nat, minted: Issue, calls: seq<Call>)
    requires RowsInv(rows, now) && CallsInv(rows, calls)
    ensures Unlinked(Created(rows, userId, minted.tokenHash, now + minted.lifetime, now), |rows|)
    ensures CallsInv(Created(rows, userId, minted.tokenHash, now + minted.lifetime, now), calls)
  {
    var after := Created(rows, userId, minted.tokenHash, now + minted.lifetime, now);
    assert forall i :: 0 <= i < |rows| ==> after[i] == rows[i];
    forall k | 0 <= k < |calls|
      ensures CallInv(after, calls[k])
    {
      assert CallInv(rows, calls[k]);
      CallSurvives(rows, after, calls[k]);
    }
  }

  lemma TouchedInv(rows: seq<Row>, now: Time, id: nat, calls: seq<Call>)
    requires RowsInv(rows, now) && CallsInv(rows, calls)
    ensures RowsInv(Touched(rows, id, now), now)
    ensures CallsInv(Touched(rows, id, now), calls)
  {
    var after := Touched(rows, id, now);
    assert forall i :: 0 <= i < |rows| ==> after[i] == rows[i].(lastUsedAt := after[i].lastUsedAt);
    assert forall i, j: nat :: MayFollow(rows, i, j) ==> MayFollow(after, i, j);
    forall k | 0 <= k < |calls|
      ensures CallInv(after, calls[k])
    {
      assert CallInv(rows, calls[k]);
      CallSurvives(rows, after, calls[k]);
    }
  }

  /** Revoking without a successor. */
  lemma RevokedInv(rows: seq<Row>, now: Time, id: nat, calls: seq<Call>)
    requires RowsInv(rows, now) && CallsInv(rows, calls)
    ensures RowsInv(Revoked(rows, id, None, now), now)
    ensures CallsInv(Revoked(rows, id, None, now), calls)
  {
    var after := Revoked(rows, id, None, now);
    assert forall i :: 0 <= i < |rows| ==> after[i] == rows[i].(revokedAt := after[i].revokedAt);
    assert forall i, j: nat :: MayFollow(rows, i, j) ==> MayFollow(after, i, j);
    forall k | 0 <= k < |calls|
      ensures CallInv(after, calls[k])
    {
      assert CallInv(rows, calls[k]);
      CallSurvives(rows, after, calls[k]);
    }
  }

  /** Revoking in favour of a token nobody is linked to yet. */
  lemma RotatedInv(rows: seq<Row>, now: Time, id: nat, next: nat)
    requires RowsInv(rows, now) && MayFollow(rows, id, next) && Unlinked(rows, next)
    ensures RowsInv(Revoked(rows, id, Some(next), now), now)
    ensures Revoked(rows, id, Some(next), now)[id].revokedAt.Some?
  {
    var after := Revoked(rows, id, Some(next), now);
    assert forall i :: 0 <= i < |rows| ==> after[i] == rows[i].(revokedAt := after[i].revokedAt,
        replacedBy := after[i].replacedBy);
    assert forall i :: 0 <= i < |rows| && i != id ==> after[i] == rows[i];
    assert forall i, j: nat :: MayFollow(rows, i, j) ==> MayFollow(after, i, j);
  }

  /** The calls that did not issue the new successor stay sound. */
  lemma RotatedCall(rows: seq<Row>, now: Time, id: nat, next: nat, c: Call)
    requires CallInv(rows, c) && IssuedBy(c) != Some(next)
    ensures CallInv(Revoked(rows, id, Some(next), now), c)
  {
    var after := Revoked(rows, id, Some(next), now);
    if IssuedBy(c).Some? && !c.Refreshed? {
      assert Unlinked(after, IssuedBy(c).value);
    }
    CallSurvives(rows, after, c);
  }

  /** The state after call `call` has become `c` over `rows`. */
  predicate AdvancedWell(s: State, call: nat, rows: seq<Row>, c: Call)
    requires call < |s.calls|
  {
    && RowsInv(rows, s.now)
    && CallsInv(rows, s.calls[call := c])
    && (IssuedBy(c) == None || IssuedBy(c) == IssuedBy(s.calls[call]) || IssuedBy(c) == Some(|s.rows|))
  }

  lemma CallsUpdate(rows: seq<Row>, calls: seq<Call>, call: nat, c: Call)
    requires CallsInv(rows, calls) && call < |calls| && CallInv(rows, c)
    ensures CallsInv(rows, calls[call := c])
  {
  }

  lemma MayFollowNew(rows: seq<Row>, now: Time, existing: nat, minted: Issue)
    requires RowsInv(rows, now) && existing < |rows|
    ensures MayFollow(Created(rows, rows[existing].userId, minted.tokenHash, now + minted.lifetime, now), existing,
            |rows|)
  {
  }

  /** The rows once `minted` was issued in place of `existing`. */
  function Reissued(rows: seq<Row>, existing: nat, minted: Issue, now: Time): seq<Row>
    requires existing < |rows|
  {
    Created(rows, rows[existing].userId, minted.tokenHash, now + minted.lifetime, now)
  }

  lemma IssuedWell(s: State, call: nat, existing: nat, minted: Issue)
    requires RowsInv(s.rows, s.now) && CallsInv(s.rows, s.calls) && call < |s.calls| && existing < |s.rows|
    requires IsFreshHash(s.rows, minted.tokenHash)
    ensures AdvancedWell(s, call, Reissued(s.rows, existing, minted, s.now), Issued(existing, |s.rows|))
  {
    CreatedInv(s.rows, s.now, s.rows[existing].userId, minted);
    CreatedCalls(s.rows, s.now, s.rows[existing].userId, minted, s.calls);
    MayFollowNew(s.rows, s.now, existing, minted);
    CallsUpdate(Reissued(s.rows, existing, minted, s.now), s.calls, call, Issued(existing, |s.rows|));
  }

  lemma StaleWell(s: State, call: nat)
    requires RowsInv(s.rows, s.now) && CallsInv(s.rows, s.calls) && call < |s.calls|
    ensures AdvancedWell(s, call, s.rows, s.calls[call])
  {
    assert s.calls[call := s.calls[call]] == s.calls;
  }

  lemma IssueAdvances(s: State, call: nat, minted: Issue)
    requires RowsInv(s.rows, s.now) && CallsInv(s.rows, s.calls) && call < |s.calls| && s.calls[call].Issuing?
    ensures AdvancedWell(s, call, AdvanceCall(s, s.calls[call], minted).0, AdvanceCall(s, s.calls[call], minted).1)
  {
    assert CallInv(s.rows, s.calls[call]);
    var existing, result := s.calls[call].existing, AdvanceCall(s, s.calls[call], minted);
    if IsFreshHash(s.rows, minted.tokenHash) {
      assert result == (Reissued(s.rows, existing, minted, s.now), Issued(existing, |s.rows|));
      IssuedWell(s, call, existing, minted);
    } else {
      assert result == (s.rows, s.calls[call]);
      StaleWell(s, call);
    }
  }

  lemma MarkedAdvances(s: State, call: nat, minted: Issue)
    requires Inv(s) && call < |s.calls| && s.calls[call].Marked?
    ensures var (rows, c) := AdvanceCall(s, s.calls[call], minted); AdvancedWell(s, call, rows, c)
  {
    var existing, next, nextRecord := s.calls[call].existing, s.calls[call].next, s.calls[call].nextRecord;
    assert CallInv(s.rows, s.calls[call]) && IssuedBy(s.calls[call]) == Some(next);
    assert forall k :: 0 <= k < |s.calls| && k != call ==> IssuedBy(s.calls[k]) != Some(next);
    if nextRecord == None {
      RevokedInv(s.rows, s.now, existing, s.calls);
      assert CallInv(Revoked(s.rows, existing, None, s.now), s.calls[call]);
    } else {
      RotatedInv(s.rows, s.now, existing, next);
      forall k | 0 <= k < |s.calls| && k != call
        ensures CallInv(Revoked(s.rows, existing, Some(next), s.now), s.calls[k])
      {
        assert CallInv(s.rows, s.calls[k]);
        RotatedCall(s.rows, s.now, existing, next, s.calls[k]);
      }
    }
  }

  lemma RevokeAdvances(s: State, call: nat, minted: Issue)
    requires Inv(s) && call < |s.calls| && (s.calls[call].Orphaned? || s.calls[call].LogoutFound?)
    ensures var (rows, c) := AdvanceCall(s, s.calls[call], minted); AdvancedWell(s, call, rows, c)
  {
    RevokedInv(s.rows, s.now, s.calls[call].existing, s.calls);
  }

  lemma ReadAdvances(s: State, call: nat, minted: Issue)
    requires Inv(s) && call < |s.calls|
    requires var c := s.calls[call]; !c.Issuing? && !c.Marked? && !c.Orphaned? && !c.LogoutFound? && !c.Reread?
    ensures var (rows, c) := AdvanceCall(s, s.calls[call], minted); AdvancedWell(s, call, rows, c)
  {
    var c := s.calls[call];
    assert CallInv(s.rows, c);
    if c.Issued? {
      FindOwn(s.rows, s.now, s.now, c.next);
    }
    var (rows, c') := AdvanceCall(s, c, minted);
    assert rows == s.rows && CallInv(rows, c');
  }

  lemma TouchAdvances(s: State, call: nat, minted: Issue)
    requires Inv(s) && call < |s.calls| && s.calls[call].Reread?
    ensures var (rows, c) := AdvanceCall(s, s.calls[call], minted); AdvancedWell(s, call, rows, c)
  {
    TouchedInv(s.rows, s.now, s.calls[call].existing, s.calls);
    assert CallInv(Touched(s.rows, s.calls[call].existing, s.now), s.calls[call]);
  }

  /** Advancing one call keeps the rows sound, every call sound, and issues at most a brand-new token. */
  lemma AdvanceInv(s: State, call: nat, minted: Issue)
    requires Inv(s) && call < |s.calls|
    ensures var (rows, c) := AdvanceCall(s, s.calls[call], minted); AdvancedWell(s, call, rows, c)
  {
    match s.calls[call] {
      case Issuing(_) => IssueAdvances(s, call, minted);
      case Marked(_, _, _) => MarkedAdvances(s, call, minted);
      case Orphaned(_) => RevokeAdvances(s, call, minted);
      case LogoutFound(_) => RevokeAdvances(s, call, minted);
      case Reread(_, _, _) => TouchAdvances(s, call, minted);
      case _ => ReadAdvances(s, call, minted);
    }
  }

  lemma IssuedWithin(rows: seq<Row>, c: Call)
    requires CallInv(rows, c) && IssuedBy(c).Some?
    ensures IssuedBy(c).value < |rows|
  {
  }

  /** Issued tokens stay distinct. */
  lemma AdvanceDistinct(s: State, call: nat, c: Call)
    requires Inv(s) && call < |s.calls|
    requires IssuedBy(c) == None || IssuedBy(c) == IssuedBy(s.calls[call]) || IssuedBy(c) == Some(|s.rows|)
    ensures IssuedDistinct(s.calls[call := c])
  {
    var calls := s.calls[call := c];
    forall k, m | 0 <= k < m < |calls| && IssuedBy(calls[k]).Some?
      ensures IssuedBy(calls[k]) != IssuedBy(calls[m])
    {
      assert CallInv(s.rows, s.calls[k]) && CallInv(s.rows, s.calls[m]);
      if k != call { IssuedWithin(s.rows, s.calls[k]); }
      if m != call && IssuedBy(s.calls[m]).Some? { IssuedWithin(s.rows, s.calls[m]); }
    }
  }

  lemma LoginWell(s: State, userId: nat, minted: Issue)
    requires Inv(s) && IsFreshHash(s.rows, minted.tokenHash)
    ensures Inv(s.(rows := Created(s.rows, userId, minted.tokenHash, s.now + minted.lifetime, s.now)))
  {
    CreatedInv(s.rows, s.now, userId, minted);
    CreatedCalls(s.rows, s.now, userId, minted, s.calls);
  }

  lemma LoginInv(s: State, userId: nat, minted: Issue)
    requires Inv(s) && IsFreshHash(s.rows, minted.tokenHash)
    ensures Inv(Step(s, Login(userId, minted)))
  {
    assert Step(s, Login(userId, minted))
        == s.(rows := Created(s.rows, userId, minted.tokenHash, s.now + minted.lifetime, s.now));
    LoginWell(s, userId, minted);
  }

  lemma TickInv(s: State, passed: nat)
    requires Inv(s)
    ensures Inv(Step(s, Tick(passed)))
  {
  }

  lemma StepInv(s: State, e: Event)
    requires Inv(s)
    ensures Inv(Step(s, e))
  {
    match e {
      case Login(userId, minted) =>
        if IsFreshHash(s.rows, minted.tokenHash) { LoginInv(s, userId, minted); }
      case Advance(call, minted) =>
        if call < |s.calls| {
          AdvanceInv(s, call, minted);
          AdvanceDistinct(s, call, AdvanceCall(s, s.calls[call], minted).1);
        }
      case Tick(passed) => TickInv(s, passed);
      case _ =>
    }
  }

  /** The invariant holds in every state of every interleaving. */
  lemma {:induction false} RunInv(s: State, events: seq<Event>)
    requires Inv(s)
    ensures Inv(Run(s, events))
    decreases |events|
  {
    if events != [] {
      StepInv(s, events[0]);
      RunInv(Step(s, events[0]), events[1..]);
    }
  }

  // ---- What a run never changes -----------------------------------------------------------------

  lemma StepKeeps(s: State, e: Event)
    ensures Keeps(s.rows, Step(s, e).rows)
  {
  }

  /** In every interleaving a token's revocation and its successor are written at most once. */
  lemma {:induction false} WrittenOnce(s: State, events: seq<Event>)
    ensures Keeps(s.rows, Run(s, events).rows)
    decreases |events|
  {
    if events != [] {
      StepKeeps(s, events[0]);
      WrittenOnce(Step(s, events[0]), events[1..]);
    }
  }

  // ---- Rotation chains ----------------------------------------------------------------------------

  /** The token reached after `n` rotations, if there are that many. */
  function Successor(rows: seq<Row>, i: nat, n: nat): Option<nat>
    decreases n
  {
    if n == 0 then Some(i)
    else if i < |rows| && rows[i].replacedBy.Some? then Successor(rows, rows[i].replacedBy.value, n - 1)
    else None
  }

  /** Rotation chains run through ever younger tokens of one user, so they are acyclic and end. */
  lemma {:induction false} ChainsAreAcyclic(rows: seq<Row>, now: Time, i: nat, n: nat)
    requires RowsInv(rows, now) && i < |rows|
    ensures var j := Successor(rows, i, n);
            j.Some? ==> i + n <= j.value < |rows| && rows[j.value].userId == rows[i].userId
    ensures n >= |rows| ==> Successor(rows, i, n) == None
    decreases n
  {
    if n > 0 && rows[i].replacedBy.Some? {
      ChainsAreAcyclic(rows, now, rows[i].replacedBy.value, n - 1);
    }
  }

  /** No two tokens share a successor, so a chain has no merge either. */
  lemma {:induction false} ChainsDoNotMerge(rows: seq<Row>, now: Time, i: nat, j: nat, n: nat)
    requires RowsInv(rows, now) && i < |rows| && j < |rows|
    requires Successor(rows, i, n).Some? && Successor(rows, i, n) == Successor(rows, j, n)
    ensures i == j
    decreases n
  {
    if n > 0 {
      ChainsDoNotMerge(rows, now, rows[i].replacedBy.value, rows[j].replacedBy.value, n - 1);
    }
  }

  // ---- Refreshing once ------------------------------------------------------------------------------

  /** A revoked token is found by no later lookup. */
  lemma RevokedIsNeverFound(earlier: seq<Row>, later: seq<Row>, now: Time, at: Time, i: nat)
    requires RowsInv(later, now) && Keeps(earlier, later)
    requires i < |earlier| && earlier[i].revokedAt.Some?
    ensures FindActive(later, earlier[i].tokenHash, at) == None
  {
    FindOwn(later, now, at, i);
  }

  /** The token a completed call has spent: exchanged, dropped for want of its user, or logged out. */
  function Spent(c: Call): Option<nat> {
    match c
    case Refreshed(existing, _) => Some(existing)
    case Dropped(existing) => Some(existing)
    case LoggedOut(spent) => spent
    case _ => None
  }

  /** The call presents a token that it has not yet looked up. */
  predicate Presents(c: Call, tokenHash: nat) { c == Refreshing(tokenHash) || c == LoggingOut(tokenHash) }

  /** The lookup found nothing. */
  predicate TurnedAway(c: Call) { c == Rejected || c == LoggedOut(None) }

  /** The call has presented token `i` and was not let in. */
  predicate Barred(s: State, call: nat, i: nat) {
    && i < |s.rows| && s.rows[i].revokedAt.Some?
    && call < |s.calls| && (Presents(s.calls[call], s.rows[i].tokenHash) || TurnedAway(s.calls[call]))
  }

  lemma BarredStep(s: State, e: Event, call: nat, i: nat)
    requires Inv(s) && Barred(s, call, i)
    ensures Barred(Step(s, e), call, i)
  {
    StepKeeps(s, e);
    RevokedIsNeverFound(s.rows, s.rows, s.now, s.now, i);
  }

  /**
   Once a refresh or a logout has spent a token, no call that has yet to look it up, be it a refresh or a
   logout, ever finds it again, in any continuation.
   */
  lemma SpentTokenStaysSpent(s: State, events: seq<Event>, done: nat, call: nat)
    requires Inv(s) && done < |s.calls| && Spent(s.calls[done]).Some? && call < |s.calls|
    requires Spent(s.calls[done]).value < |s.rows|
             && Presents(s.calls[call], s.rows[Spent(s.calls[done]).value].tokenHash)
    ensures var end := Run(s, events);
            call < |end.calls| && (end.calls[call] == s.calls[call] || TurnedAway(end.calls[call]))
  {
    assert CallInv(s.rows, s.calls[done]);
    BarredRun(s, events, call, Spent(s.calls[done]).value);
    WrittenOnce(s, events);
    SameKind(s, events, call);
  }

  /** A refresh stays a refresh and a logout a logout. */
  predicate IsLogout(c: Call) { c.LoggingOut? || c.LogoutFound? || c.LoggedOut? }

  lemma {:induction false} SameKind(s: State, events: seq<Event>, call: nat)
    requires call < |s.calls|
    ensures call < |Run(s, events).calls| && (IsLogout(Run(s, events).calls[call]) <==> IsLogout(s.calls[call]))
    decreases |events|
  {
    if events != [] { SameKind(Step(s, events[0]), events[1..], call); }
  }

  lemma {:induction false} BarredRun(s: State, events: seq<Event>, call: nat, i: nat)
    requires Inv(s) && Barred(s, call, i)
    ensures Barred(Run(s, events), call, i)
    decreases |events|
  {
    if events != [] {
      StepInv(s, events[0]);
      BarredStep(s, events[0], call, i);
      BarredRun(Step(s, events[0]), events[1..], call, i);
    }
  }

  /**
   In every interleaving of logins, refreshes and logouts: a successor is a
   younger token of the same user, only a revoked token has one, and no two
   tokens share one.
   */
  lemma EveryInterleavingIsSound(events: seq<Event>)
    ensures var rows := Run(START, events).rows;
            && (forall i :: 0 <= i < |rows| && rows[i].replacedBy.Some? ==>
                  rows[i].revokedAt.Some? && MayFollow(rows, i, rows[i].replacedBy.value))
            && (forall i, j :: 0 <= i < j < |rows| && rows[i].replacedBy.Some? ==>
                  rows[i].replacedBy != rows[j].replacedBy)
  {
    RunInv(START, events);
  }

  // ---- Refreshing twice ------------------------------------------------------------------------------

  /** A refresh call in flight on token `i`: it has read the token and has not revoked it yet. */
  predicate Holds(c: Call, i: nat) {
    match c
    case Found(existing) => existing == i
    case Issuing(existing) => existing == i
    case Issued(existing, _) => existing == i
    case Reread(existing, _, _) => existing == i
    case Marked(existing, _, _) => existing == i
    case _ => false
  }

  /** A refresh call that has found the user of token `i`. */
  predicate Checked(c: Call, i: nat) {
    match c
    case Found(_) => false
    case Refreshed(existing, _) => existing == i
    case _ => Holds(c, i)
  }

  predicate Exchanged(c: Call, i: nat) { c.Refreshed? && c.existing == i }

  predicate Settled(c: Call) { c.Refreshed? || c.Dropped? || c.Rejected? || c.LoggedOut? }

  predicate BothHold(s: State, a: nat, b: nat, i: nat) {
    a < |s.calls| && b < |s.calls| && Holds(s.calls[a], i) && Holds(s.calls[b], i)
  }

  /** At some moment of the run both calls are in flight on token `i`. */
  predicate Overlap(s: State, events: seq<Event>, a: nat, b: nat, i: nat)
    decreases |events|
  {
    BothHold(s, a, b, i) || (events != [] && Overlap(Step(s, events[0]), events[1..], a, b, i))
  }

  /** At some moment of the run the call has found the user of token `i`. */
  predicate PassesCheck(s: State, events: seq<Event>, call: nat, i: nat)
    decreases |events|
  {
    || (call < |s.calls| && Checked(s.calls[call], i))
    || (events != [] && PassesCheck(Step(s, events[0]), events[1..], call, i))
  }

  lemma CheckedStep(s: State, e: Event, call: nat, i: nat)
    requires call < |s.calls| && Checked(s.calls[call], i)
    ensures call < |Step(s, e).calls| && Checked(Step(s, e).calls[call], i)
  {
  }

  lemma {:induction false} CheckedStays(s: State, events: seq<Event>, call: nat, i: nat)
    requires call < |s.calls| && Checked(s.calls[call], i)
    ensures call < |Run(s, events).calls| && Checked(Run(s, events).calls[call], i)
    decreases |events|
  {
    if events != [] {
      CheckedStep(s, events[0], call, i);
      CheckedStays(Step(s, events[0]), events[1..], call, i);
    }
  }

  /** Passing the check decides the outcome: the call is bound to end with an exchange. */
  lemma {:induction false} CheckDecides(s: State, events: seq<Event>, call: nat, i: nat)
    requires call < |s.calls| ==> !Checked(s.calls[call], i)
    ensures PassesCheck(s, events, call, i)
            <==> call < |Run(s, events).calls| && Checked(Run(s, events).calls[call], i)
    decreases |events|
  {
    if events != [] {
      var next := Step(s, events[0]);
      if call < |next.calls| && Checked(next.calls[call], i) {
        CheckedStays(next, events[1..], call, i);
      } else {
        CheckDecides(next, events[1..], call, i);
      }
    }
  }

  /** The call is not in flight on a revoked token, nor has it exchanged it. */
  predicate ShutOut(s: State, call: nat, i: nat) {
    && i < |s.rows| && s.rows[i].revokedAt.Some?
    && (call < |s.calls| ==> !Holds(s.calls[call], i) && !Exchanged(s.calls[call], i))
  }

  lemma {:induction false} ShutOutStays(s: State, events: seq<Event>, call: nat, i: nat)
    requires ShutOut(s, call, i)
    ensures ShutOut(Run(s, events), call, i)
    decreases |events|
  {
    if events != [] {
      StepKeeps(s, events[0]);
      ShutOutStays(Step(s, events[0]), events[1..], call, i);
    }
  }

  predicate Unspent(s: State, a: nat, i: nat) { a < |s.calls| ==> !Exchanged(s.calls[a], i) }

  /** An exchange happens in one step of one call, and revokes the token. */
  lemma ExchangeStep(s: State, e: Event, a: nat, i: nat)
    requires Inv(s) && Unspent(s, a, i) && !Unspent(Step(s, e), a, i)
    ensures e.Advance? && e.call == a < |s.calls| && Holds(s.calls[a], i)
    ensures i < |Step(s, e).rows| && Step(s, e).rows[i].revokedAt.Some?
  {
    StepInv(s, e);
    assert CallInv(Step(s, e).rows, Step(s, e).calls[a]);
  }

  /** If the first exchange finds the other call not in flight, the other never gets there. */
  lemma FirstExchange(s: State, events: seq<Event>, a: nat, b: nat, i: nat)
    requires Inv(s) && events != [] && a != b && Unspent(s, a, i) && Unspent(s, b, i)
    requires !Unspent(Step(s, events[0]), a, i)
    ensures BothHold(s, a, b, i) || Unspent(Run(s, events), b, i)
  {
    ExchangeStep(s, events[0], a, i);
    if !BothHold(s, a, b, i) {
      var next := Step(s, events[0]);
      assert ShutOut(next, b, i);
      ShutOutStays(next, events[1..], b, i);
    }
  }

  lemma {:induction false} ExchangesOverlap(s: State, events: seq<Event>, a: nat, b: nat, i: nat)
    requires Inv(s) && a != b && Unspent(s, a, i) && Unspent(s, b, i)
    requires !Unspent(Run(s, events), a, i) && !Unspent(Run(s, events), b, i)
    ensures Overlap(s, events, a, b, i)
    decreases |events|
  {
    if events != [] {
      var next := Step(s, events[0]);
      if !Unspent(next, a, i) {
        FirstExchange(s, events, a, b, i);
      } else if !Unspent(next, b, i) {
        FirstExchange(s, events, b, a, i);
      } else {
        StepInv(s, events[0]);
        ExchangesOverlap(next, events[1..], a, b, i);
      }
    }
  }

  /**
   The exact condition for exchanging a token twice. Two completed refresh calls have both exchanged
   token `i` if and only if at some moment both had read it and neither had revoked it yet, and each
   found its user. They then hold two different tokens of that user.
   */
  lemma BothExchangeIff(events: seq<Event>, a: nat, b: nat, i: nat)
    requires a != b && a < |Run(START, events).calls| && b < |Run(START, events).calls|
    requires Settled(Run(START, events).calls[a]) && Settled(Run(START, events).calls[b])
    ensures var end := Run(START, events);
            && (Exchanged(end.calls[a], i) && Exchanged(end.calls[b], i)
                <==> && Overlap(START, events, a, b, i)
                     && PassesCheck(START, events, a, i) && PassesCheck(START, events, b, i))
            && (Exchanged(end.calls[a], i) && Exchanged(end.calls[b], i) ==>
                  && i < |end.rows| && end.calls[a].next < |end.rows| && end.calls[b].next < |end.rows|
                  && end.calls[a].next != end.calls[b].next
                  && end.rows[end.calls[a].next].userId == end.rows[end.calls[b].next].userId == end.rows[i].userId)
  {
    var end := Run(START, events);
    CheckDecides(START, events, a, i);
    CheckDecides(START, events, b, i);
    RunInv(START, events);
    if Exchanged(end.calls[a], i) && Exchanged(end.calls[b], i) {
      ExchangesOverlap(START, events, a, b, i);
      assert CallInv(end.rows, end.calls[a]) && CallInv(end.rows, end.calls[b]);
      DifferentTokens(end.calls, a, b);
    }
  }

  lemma DifferentTokens(calls: seq<Call>, a: nat, b: nat)
    requires IssuedDistinct(calls) && a < |calls| && b < |calls| && a != b && IssuedBy(calls[a]).Some?
    ensures IssuedBy(calls[a]) != IssuedBy(calls[b])
  {
    if b < a && IssuedBy(calls[b]).Some? { assert IssuedBy(calls[b]) != IssuedBy(calls[a]); }
  }

  /** The user of token `i`, once there is one, is known in every state of the run. */
  predicate UserStays(s: State, events: seq<Event>, i: nat)
    decreases |events|
  {
    && (i < |s.rows| ==> s.rows[i].userId in s.users)
    && (events != [] ==> UserStays(Step(s, events[0]), events[1..], i))
  }

  /** Past its read, a call whose user is known is bound to pass the check. */
  predicate Bound(c: Call, i: nat) { Holds(c, i) || Exchanged(c, i) }

  lemma BoundStep(s: State, e: Event, call: nat, i: nat)
    requires CallsInv(s.rows, s.calls) && call < |s.calls| && Bound(s.calls[call], i)
    requires i < |s.rows| ==> s.rows[i].userId in s.users
    ensures call < |Step(s, e).calls| && Bound(Step(s, e).calls[call], i)
  {
    assert CallInv(s.rows, s.calls[call]);
  }

  lemma {:induction false} BoundStays(s: State, events: seq<Event>, call: nat, i: nat)
    requires Inv(s) && UserStays(s, events, i) && call < |s.calls| && Bound(s.calls[call], i)
    ensures call < |Run(s, events).calls| && Bound(Run(s, events).calls[call], i)
    decreases |events|
  {
    if events != [] {
      StepInv(s, events[0]);
      BoundStep(s, events[0], call, i);
      BoundStays(Step(s, events[0]), events[1..], call, i);
    }
  }

  lemma {:induction false} OverlapBinds(s: State, events: seq<Event>, a: nat, b: nat, i: nat)
    requires Inv(s) && UserStays(s, events, i) && Overlap(s, events, a, b, i)
    ensures var end := Run(s, events);
            a < |end.calls| && b < |end.calls| && Bound(end.calls[a], i) && Bound(end.calls[b], i)
    decreases |events|
  {
    if BothHold(s, a, b, i) {
      BoundStays(s, events, a, i);
      BoundStays(s, events, b, i);
    } else {
      StepInv(s, events[0]);
      OverlapBinds(Step(s, events[0]), events[1..], a, b, i);
    }
  }

  /** While the token's user is not removed, overlap alone decides: both exchange it exactly when they overlap. */
  lemma BothExchangeIffOverlap(events: seq<Event>, a: nat, b: nat, i: nat)
    requires a != b && a < |Run(START, events).calls| && b < |Run(START, events).calls|
    requires Settled(Run(START, events).calls[a]) && Settled(Run(START, events).calls[b])
    requires UserStays(START, events, i)
    ensures Exchanged(Run(START, events).calls[a], i) && Exchanged(Run(START, events).calls[b], i)
            <==> Overlap(START, events, a, b, i)
  {
    BothExchangeIff(events, a, b, i);
    if Overlap(START, events, a, b, i) { OverlapBinds(START, events, a, b, i); }
  }

  // ---- One live token per login, over interleaved runs ---------------------------------------------------

  /** A state with a history of which login each token goes back to. */
  datatype Traced = Traced(s: State, origins: seq<nat>)

  const TRACED_START: Traced := Traced(START, [])

  /** A refreshed token goes back to the login of the token it replaces, any other to itself. */
  function OriginOf(t: Traced, e: Event): nat {
    if e.Advance? && e.call < |t.s.calls| && t.s.calls[e.call].Issuing? && t.s.calls[e.call].existing < |t.origins|
    then t.origins[t.s.calls[e.call].existing]
    else |t.s.rows|
  }

  function Trace(t: Traced, e: Event): Traced {
    var next := Step(t.s, e);
    Traced(next, if |next.rows| > |t.s.rows| then t.origins + [OriginOf(t, e)] else t.origins)
  }

  function TraceAll(t: Traced, events: seq<Event>): Traced
    decreases |events|
  {
    if events == [] then t else TraceAll(Trace(t, events[0]), events[1..])
  }

  /** The token a refresh call in flight has read. */
  function Held(c: Call): Option<nat> {
    match c
    case Found(existing) => Some(existing)
    case Issuing(existing) => Some(existing)
    case Issued(existing, _) => Some(existing)
    case Reread(existing, _, _) => Some(existing)
    case Marked(existing, _, _) => Some(existing)
    case _ => None
  }

  /** No two refresh calls are in flight on tokens of one login. */
  predicate Exclusive(t: Traced) {
    forall k, m :: 0 <= k < m < |t.s.calls| && Held(t.s.calls[k]).Some? && Held(t.s.calls[m]).Some?
                   && Held(t.s.calls[k]).value < |t.origins| && Held(t.s.calls[m]).value < |t.origins| ==>
      t.origins[Held(t.s.calls[k]).value] != t.origins[Held(t.s.calls[m]).value]
  }

  /** That holds in every state of the run. Logouts and refreshes of other logins may overlap as they like. */
  predicate Apart(t: Traced, events: seq<Event>)
    decreases |events|
  {
    Exclusive(t) && (events != [] ==> Apart(Trace(t, events[0]), events[1..]))
  }

  /** A refresh call in flight has issued `j` in place of `i`. */
  predicate Replacing(c: Call, i: nat, j: nat) { Held(c) == Some(i) && IssuedBy(c) == Some(j) }

  predicate Bridged(calls: seq<Call>, i: nat, j: nat) { exists k :: 0 <= k < |calls| && Replacing(calls[k], i, j) }

  /** `j` is another token of the login of `i`. */
  predicate OtherOf(origins: seq<nat>, i: nat, j: nat)
    requires i < |origins| && j < |origins|
  {
    j != i && origins[j] == origins[i]
  }

  /** Of the login of the token a call holds, only that token and the one issued in its place can be live. */
  predicate Sole(rows: seq<Row>, origins: seq<nat>, c: Call)
    requires |origins| == |rows|
  {
    Held(c).Some? ==>
      && Held(c).value < |rows|
      && (IssuedBy(c).Some? ==>
            IssuedBy(c).value < |rows| && origins[IssuedBy(c).value] == origins[Held(c).value])
      && forall j :: 0 <= j < |rows| && OtherOf(origins, Held(c).value, j) && Some(j) != IssuedBy(c) ==>
           rows[j].revokedAt.Some?
  }

  predicate OriginsFit(t: Traced) {
    |t.origins| == |t.s.rows| && forall i :: 0 <= i < |t.origins| ==> t.origins[i] <= i
  }

  predicate BothLive(t: Traced, i: nat, j: nat)
    requires |t.origins| == |t.s.rows| && i < |t.s.rows| && j < |t.s.rows|
  {
    t.origins[i] == t.origins[j] && t.s.rows[i].revokedAt.None? && t.s.rows[j].revokedAt.None?
  }

  /** Two live tokens of one login are the old and the new token of one refresh in flight. */
  predicate LivePairsBridged(t: Traced)
    requires |t.origins| == |t.s.rows|
  {
    forall i, j :: 0 <= i < j < |t.s.rows| && BothLive(t, i, j) ==> Bridged(t.s.calls, i, j)
  }

  /** Rows are only ever revoked and touched: what was bridged or sole stays so when nothing is inserted. */
  predicate OnlyRevokes(before: seq<Row>, after: seq<Row>) {
    |after| == |before| && forall i :: 0 <= i < |before| && before[i].revokedAt.Some? ==> after[i].revokedAt.Some?
  }

  /** Nothing but a call's own step takes it out of flight or gives it a new token. */
  lemma BridgeSurvives(calls: seq<Call>, call: nat, c: Call, i: nat, j: nat)
    requires call < |calls| && Bridged(calls, i, j) && (Replacing(calls[call], i, j) ==> Replacing(c, i, j))
    ensures Bridged(calls[call := c], i, j)
  {
    var k :| 0 <= k < |calls| && Replacing(calls[k], i, j);
    assert Replacing(calls[call := c][k], i, j);
  }

  /** The call of the event issues a token in place of the one it has read. */
  predicate Issues(t: Traced, e: Event) {
    && e.Advance? && e.call < |t.s.calls| && t.s.calls[e.call].Issuing?
    && |Step(t.s, e).rows| > |t.s.rows|
  }

  /** Every token of the login of `i` but `i` itself is revoked. */
  predicate Alone(t: Traced, i: nat)
    requires |t.origins| == |t.s.rows|
  {
    i < |t.s.rows| && forall j :: 0 <= j < |t.s.rows| && OtherOf(t.origins, i, j) ==> t.s.rows[j].revokedAt.Some?
  }

  /** If the event issues a token, it does so while every other token of that login is revoked. */
  predicate IssuesAlone(t: Traced, e: Event)
    requires |t.origins| == |t.s.rows|
  {
    Issues(t, e) ==> Alone(t, t.s.calls[e.call].existing)
  }

  predicate AlwaysAlone(t: Traced, events: seq<Event>)
    requires |t.origins| == |t.s.rows|
    decreases |events|
  {
    events != [] ==>
      && IssuesAlone(t, events[0]) && |Trace(t, events[0]).origins| == |Trace(t, events[0]).s.rows|
      && AlwaysAlone(Trace(t, events[0]), events[1..])
  }

  /** In every state of the run, live tokens of one login are the old and the new one of a refresh in flight. */
  predicate AlwaysBridged(t: Traced, events: seq<Event>)
    decreases |events|
  {
    && |t.origins| == |t.s.rows| && LivePairsBridged(t)
    && (events != [] ==> AlwaysBridged(Trace(t, events[0]), events[1..]))
  }

  lemma TraceFits(t: Traced, e: Event)
    requires Inv(t.s) && OriginsFit(t)
    ensures Inv(Trace(t, e).s) && OriginsFit(Trace(t, e))
  {
    StepInv(t.s, e);
    if Issues(t, e) { assert CallInv(t.s.rows, t.s.calls[e.call]); }
  }

  /** The bridges of other calls stand; a call's own falls only when it revokes the old token. */
  lemma AdvanceKeepsBridges(t: Traced, e: Event)
    requires Inv(t.s) && OriginsFit(t) && LivePairsBridged(t)
    requires e.Advance? && e.call < |t.s.calls| && |Step(t.s, e).rows| <= |t.s.rows|
    ensures LivePairsBridged(Trace(t, e))
  {
    var next := Step(t.s, e);
    AdvanceOnlyRevokes(t, e);
    forall i, j | 0 <= i < j < |next.rows| && BothLive(Trace(t, e), i, j)
      ensures Bridged(next.calls, i, j)
    {
      assert BothLive(t, i, j);
      BridgeSurvives(t.s.calls, e.call, next.calls[e.call], i, j);
    }
  }

  lemma AdvanceOnlyRevokes(t: Traced, e: Event)
    requires Inv(t.s) && e.Advance? && e.call < |t.s.calls| && |Step(t.s, e).rows| <= |t.s.rows|
    ensures var next := Step(t.s, e);
            && OnlyRevokes(t.s.rows, next.rows)
            && (forall i: nat, j: nat :: Replacing(t.s.calls[e.call], i, j) ==>
                  Replacing(next.calls[e.call], i, j) || (i < |next.rows| && next.rows[i].revokedAt.Some?))
  {
    StepKeeps(t.s, e);
    assert CallInv(t.s.rows, t.s.calls[e.call]);
  }

  /** A token nobody has issued yet is not half of a bridge. */
  lemma NewIsUnbridged(rows: seq<Row>, calls: seq<Call>, call: nat, i: nat, j: nat)
    requires CallsInv(rows, calls) && call < |calls| && j != i
    ensures !Bridged(calls[call := Issued(i, |rows|)], j, |rows|)
  {
    var after := calls[call := Issued(i, |rows|)];
    forall k | 0 <= k < |after|
      ensures !Replacing(after[k], j, |rows|)
    {
      if k != call { assert CallInv(rows, calls[k]); }
    }
  }

  lemma IssueBridgesIff(t: Traced, e: Event)
    requires Inv(t.s) && OriginsFit(t) && LivePairsBridged(t) && Issues(t, e) && OriginsFit(Trace(t, e))
    ensures LivePairsBridged(Trace(t, e)) <==> Alone(t, t.s.calls[e.call].existing)
  {
    var t', n, i := Trace(t, e), |t.s.rows|, t.s.calls[e.call].existing;
    assert t'.s.calls == t.s.calls[e.call := Issued(i, n)] && t'.origins == t.origins + [t.origins[i]];
    assert forall j :: 0 <= j < n ==> t'.s.rows[j] == t.s.rows[j];
    if Alone(t, i) {
      forall p, q | 0 <= p < q < |t'.s.rows| && BothLive(t', p, q)
        ensures Bridged(t'.s.calls, p, q)
      {
        if q < n {
          assert BothLive(t, p, q);
          BridgeSurvives(t.s.calls, e.call, Issued(i, n), p, q);
        } else {
          assert !OtherOf(t.origins, i, p);
          assert Replacing(t'.s.calls[e.call], i, n);
        }
      }
    } else {
      var j :| 0 <= j < n && OtherOf(t.origins, i, j) && t.s.rows[j].revokedAt.None?;
      NewIsUnbridged(t.s.rows, t.s.calls, e.call, i, j);
      assert BothLive(t', j, n);
    }
  }

  lemma NewCallKeepsBridges(t: Traced, e: Event)
    requires OriginsFit(t) && LivePairsBridged(t) && (e.StartRefresh? || e.StartLogout?)
    ensures LivePairsBridged(Trace(t, e))
  {
    var t' := Trace(t, e);
    forall i, j | 0 <= i < j < |t.s.rows| && BothLive(t', i, j)
      ensures Bridged(t'.s.calls, i, j)
    {
      assert BothLive(t, i, j) && Bridged(t.s.calls, i, j);
      var k :| 0 <= k < |t.s.calls| && Replacing(t.s.calls[k], i, j);
      assert Replacing(t'.s.calls[k], i, j);
    }
  }

  lemma LoginKeepsBridges(t: Traced, e: Event)
    requires OriginsFit(t) && LivePairsBridged(t) && e.Login? && OriginsFit(Trace(t, e))
    ensures LivePairsBridged(Trace(t, e))
  {
    var t' := Trace(t, e);
    forall i, j | 0 <= i < j < |t'.s.rows| && BothLive(t', i, j)
      ensures Bridged(t'.s.calls, i, j)
    {
      assert BothLive(t, i, j);
    }
  }

  /** One event leaves the live pairs bridged exactly when it issues no token beside another live one of the login. */
  lemma BridgedStepIff(t: Traced, e: Event)
    requires Inv(t.s) && OriginsFit(t) && LivePairsBridged(t)
    ensures Inv(Trace(t, e).s) && OriginsFit(Trace(t, e))
    ensures LivePairsBridged(Trace(t, e)) <==> IssuesAlone(t, e)
  {
    TraceFits(t, e);
    match e
    case Advance(call, _) =>
      if Issues(t, e) {
        IssueBridgesIff(t, e);
      } else if call < |t.s.calls| {
        AdvanceKeepsBridges(t, e);
      }
    case Login(_, _) => LoginKeepsBridges(t, e);
    case StartRefresh(_) => NewCallKeepsBridges(t, e);
    case StartLogout(_) => NewCallKeepsBridges(t, e);
    case Tick(_) => assert forall i, j :: 0 <= i < j < |t.s.rows| && BothLive(Trace(t, e), i, j) ==> BothLive(t, i, j);
    case SetUsers(_) =>
      assert forall i, j :: 0 <= i < j < |t.s.rows| && BothLive(Trace(t, e), i, j) ==> BothLive(t, i, j);
  }

  lemma {:induction false} BridgedRunIff(t: Traced, events: seq<Event>)
    requires Inv(t.s) && OriginsFit(t) && LivePairsBridged(t)
    ensures AlwaysBridged(t, events) <==> AlwaysAlone(t, events)
    decreases |events|
  {
    if events != [] {
      BridgedStepIff(t, events[0]);
      if IssuesAlone(t, events[0]) { BridgedRunIff(Trace(t, events[0]), events[1..]); }
    }
  }

  /**
   The exact condition for one live token per login, over every interleaving: in all its states two
   unrevoked tokens of a login are the old and the new one of a refresh in flight, if and only if every
   refresh issues its token while all tokens of the login but the one it exchanges are revoked.
   */
  lemma OneLivePerLoginIff(events: seq<Event>)
    ensures AlwaysBridged(TRACED_START, events) <==> AlwaysAlone(TRACED_START, events)
  {
    BridgedRunIff(TRACED_START, events);
  }

  predicate CallsSole(t: Traced)
    requires |t.origins| == |t.s.rows|
  {
    forall k :: 0 <= k < |t.s.calls| ==> Sole(t.s.rows, t.origins, t.s.calls[k])
  }

  predicate OneLive(t: Traced) {
    Inv(t.s) && OriginsFit(t) && CallsSole(t) && LivePairsBridged(t)
  }

  lemma SoleSurvives(before: seq<Row>, after: seq<Row>, origins: seq<nat>, c: Call)
    requires |origins| == |before| && OnlyRevokes(before, after) && Sole(before, origins, c)
    ensures Sole(after, origins, c)
  {
  }

  /** A step that inserts nothing and leaves the call sole. */
  lemma QuietStep(t: Traced, e: Event)
    requires OneLive(t) && e.Advance? && e.call < |t.s.calls|
    requires OnlyRevokes(t.s.rows, Step(t.s, e).rows) && Sole(Step(t.s, e).rows, t.origins, Step(t.s, e).calls[e.call])
    ensures CallsSole(Trace(t, e))
  {
    var next := Step(t.s, e);
    forall k | 0 <= k < |next.calls|
      ensures Sole(next.rows, t.origins, next.calls[k])
    {
      if k != e.call {
        assert Sole(t.s.rows, t.origins, t.s.calls[k]);
        SoleSurvives(t.s.rows, next.rows, t.origins, t.s.calls[k]);
      }
    }
  }

  /** Where a second call on the login would be in flight, the token being read cannot be half of a bridge. */
  lemma ReadHasNoBridge(t: Traced, e: Event, i: nat, low: nat, high: nat)
    requires OneLive(t) && e.Advance? && e.call < |t.s.calls| && t.s.calls[e.call].Refreshing?
    requires Step(t.s, e) == t.s.(calls := t.s.calls[e.call := Found(i)]) && Exclusive(Trace(t, e))
    requires i < |t.s.rows| && low < |t.s.rows| && t.origins[low] == t.origins[i]
    ensures !Bridged(t.s.calls, low, high)
  {
    var calls := Trace(t, e).s.calls;
    forall k | 0 <= k < |t.s.calls|
      ensures Held(t.s.calls[k]) != Some(low)
    {
      assert k != e.call ==> calls[k] == t.s.calls[k];
      assert Held(calls[e.call]) == Some(i);
    }
  }

  /** Reading a live token: no other of its login is live. */
  lemma ReadIsSole(t: Traced, e: Event, i: nat)
    requires OneLive(t) && e.Advance? && e.call < |t.s.calls| && t.s.calls[e.call].Refreshing?
    requires Step(t.s, e) == t.s.(calls := t.s.calls[e.call := Found(i)]) && Exclusive(Trace(t, e))
    requires i < |t.s.rows| && t.s.rows[i].revokedAt.None?
    ensures Sole(t.s.rows, t.origins, Found(i))
  {
    forall j | 0 <= j < |t.s.rows| && OtherOf(t.origins, i, j)
      ensures t.s.rows[j].revokedAt.Some?
    {
      ReadHasNoBridge(t, e, i, if i < j then i else j, if i < j then j else i);
    }
  }

  /** A new token of the login of `i` concerns no call in flight on another login. */
  lemma InsertedSole(rows: seq<Row>, row: Row, origins: seq<nat>, origin: nat, c: Call)
    requires |origins| == |rows| && Sole(rows, origins, c)
    requires Held(c).Some? ==> origins[Held(c).value] != origin
    ensures Sole(rows + [row], origins + [origin], c)
  {
  }

  /** The call that issued it holds the only two live tokens of the login. */
  lemma IssuedSole(rows: seq<Row>, row: Row, origins: seq<nat>, i: nat)
    requires |origins| == |rows| && i < |rows| && Sole(rows, origins, Issuing(i))
    ensures Sole(rows + [row], origins + [origins[i]], Issued(i, |rows|))
  {
    forall j | 0 <= j < |rows| && OtherOf(origins, i, j)
      ensures rows[j].revokedAt.Some?
    {
      assert Held(Issuing(i)).value == i;
    }
  }

  lemma IssueKeepsSole(t: Traced, e: Event)
    requires OneLive(t) && Exclusive(t) && Issues(t, e)
    ensures OriginsFit(Trace(t, e)) && CallsSole(Trace(t, e))
  {
    var t', n, i := Trace(t, e), |t.s.rows|, t.s.calls[e.call].existing;
    TraceFits(t, e);
    assert Sole(t.s.rows, t.origins, t.s.calls[e.call]);
    var row := t'.s.rows[n];
    assert t'.s.rows == t.s.rows + [row] && t'.s.calls == t.s.calls[e.call := Issued(i, n)];
    forall k | 0 <= k < |t'.s.calls|
      ensures Sole(t'.s.rows, t'.origins, t'.s.calls[k])
    {
      assert Sole(t.s.rows, t.origins, t.s.calls[k]);
      if k == e.call {
        IssuedSole(t.s.rows, row, t.origins, i);
      } else {
        InsertedSole(t.s.rows, row, t.origins, t.origins[i], t.s.calls[k]);
      }
    }
  }

  lemma LoginKeepsSole(t: Traced, e: Event)
    requires OneLive(t) && e.Login? && |Step(t.s, e).rows| > |t.s.rows|
    ensures OriginsFit(Trace(t, e)) && CallsSole(Trace(t, e))
  {
    var t', n := Trace(t, e), |t.s.rows|;
    TraceFits(t, e);
    assert t'.s.calls == t.s.calls && t'.origins == t.origins + [n];
    assert forall j :: 0 <= j < n ==> t'.s.rows[j] == t.s.rows[j] && t'.origins[j] == t.origins[j] <= j;
    forall k | 0 <= k < |t'.s.calls|
      ensures Sole(t'.s.rows, t'.origins, t'.s.calls[k])
    {
      assert Sole(t.s.rows, t.origins, t.s.calls[k]);
    }
  }

  lemma NewCallKeepsSole(t: Traced, e: Event)
    requires OneLive(t) && (e.StartRefresh? || e.StartLogout?)
    ensures CallsSole(Trace(t, e))
  {
    var t' := Trace(t, e);
    forall k | 0 <= k < |t'.s.calls|
      ensures Sole(t'.s.rows, t'.origins, t'.s.calls[k])
    {
      if k < |t.s.calls| { assert Sole(t.s.rows, t.origins, t.s.calls[k]); }
    }
  }

  lemma AdvanceKeepsSole(t: Traced, e: Event)
    requires OneLive(t) && Exclusive(t) && Exclusive(Trace(t, e)) && e.Advance? && e.call < |t.s.calls|
    ensures OriginsFit(Trace(t, e)) && CallsSole(Trace(t, e))
  {
    if Issues(t, e) {
      IssueKeepsSole(t, e);
    } else {
      AdvanceIsQuiet(t, e);
      QuietStep(t, e);
    }
  }

  lemma AdvanceIsQuiet(t: Traced, e: Event)
    requires OneLive(t) && Exclusive(Trace(t, e)) && e.Advance? && e.call < |t.s.calls|
    requires |Step(t.s, e).rows| <= |t.s.rows|
    ensures OnlyRevokes(t.s.rows, Step(t.s, e).rows)
    ensures Sole(Step(t.s, e).rows, t.origins, Step(t.s, e).calls[e.call])
  {
    var c, next := t.s.calls[e.call], Step(t.s, e);
    AdvanceOnlyRevokes(t, e);
    assert CallInv(t.s.rows, c) && Sole(t.s.rows, t.origins, c);
    SoleSurvives(t.s.rows, next.rows, t.origins, c);
    if c.Refreshing? && next.calls[e.call].Found? { ReadIsSole(t, e, next.calls[e.call].existing); }
  }

  lemma TraceKeepsSole(t: Traced, e: Event)
    requires OneLive(t) && Exclusive(t) && Exclusive(Trace(t, e)) && OriginsFit(Trace(t, e))
    ensures CallsSole(Trace(t, e))
  {
    match e
    case Advance(call, _) => if call < |t.s.calls| { AdvanceKeepsSole(t, e); }
    case Login(_, minted) => if IsFreshHash(t.s.rows, minted.tokenHash) { LoginKeepsSole(t, e); }
    case StartRefresh(_) => NewCallKeepsSole(t, e);
    case StartLogout(_) => NewCallKeepsSole(t, e);
    case Tick(_) =>
    case SetUsers(_) =>
  }

  lemma TraceKeepsOneLive(t: Traced, e: Event)
    requires OneLive(t) && Exclusive(t) && Exclusive(Trace(t, e))
    ensures OneLive(Trace(t, e)) && IssuesAlone(t, e)
  {
    if Issues(t, e) { assert Sole(t.s.rows, t.origins, t.s.calls[e.call]); }
    BridgedStepIff(t, e);
    TraceKeepsSole(t, e);
  }

  lemma {:induction false} ApartRun(t: Traced, events: seq<Event>)
    requires OneLive(t) && Apart(t, events)
    ensures OneLive(TraceAll(t, events)) && TraceAll(t, events).s == Run(t.s, events) && AlwaysAlone(t, events)
    decreases |events|
  {
    if events != [] {
      TraceKeepsOneLive(t, events[0]);
      ApartRun(Trace(t, events[0]), events[1..]);
    }
  }

  /**
   In every interleaving in which no two refreshes of one login's tokens are in flight at once, two
   unrevoked tokens of one login are always the old and the new token of a refresh in flight. So a login
   without one has at most one unrevoked token.
   */
  lemma OneLivePerLoginUnlessOverlap(events: seq<Event>)
    requires Apart(TRACED_START, events)
    ensures AlwaysAlone(TRACED_START, events)
    ensures var t := TraceAll(TRACED_START, events); t.s == Run(START, events) && OriginsFit(t) && LivePairsBridged(t)
  {
    ApartRun(TRACED_START, events);
  }

  predicate Quiet(t: Traced, origin: nat) {
    forall k :: 0 <= k < |t.s.calls| && Held(t.s.calls[k]).Some? && Held(t.s.calls[k]).value < |t.origins| ==>
      t.origins[Held(t.s.calls[k]).value] != origin
  }

  /** While no refresh of a login's tokens is in flight, the login has at most one unrevoked token. */
  lemma OneLiveAtRest(events: seq<Event>, i: nat, j: nat)
    requires Apart(TRACED_START, events) && i < j < |Run(START, events).rows|
    ensures var t := TraceAll(TRACED_START, events);
            && |t.origins| == |Run(START, events).rows|
            && (Quiet(t, t.origins[i]) && t.origins[i] == t.origins[j] ==>
                  Run(START, events).rows[i].revokedAt.Some? || Run(START, events).rows[j].revokedAt.Some?)
  {
    OneLivePerLoginUnlessOverlap(events);
    var t := TraceAll(TRACED_START, events);
    assert BothLive(t, i, j) ==> Bridged(t.s.calls, i, j);
  }

  // ---- Calls that do not overlap ---------------------------------------------------------------------

  /** Calls made one after the other. */
  datatype Op =
    | LoginOp(userId: nat, minted: Issue, at: Time)
    | RefreshOp(tokenHash: nat, users: set<nat>, minted: Issue, clock: Clock)
    | LogoutOp(tokenHash: nat, at: Time)

  /** The rows with a history of which login each token goes back to. */
  datatype Ledger = Ledger(rows: seq<Row>, origins: seq<nat>)

  function Apply(l: Ledger, op: Op): Ledger {
    match op
    case LoginOp(userId, minted, at) =>
      Ledger(Created(l.rows, userId, minted.tokenHash, at + minted.lifetime, at), l.origins + [|l.rows|])
    case LogoutOp(tokenHash, at) =>
      (match FindActive(l.rows, tokenHash, at)
       case None => l
       case Some(id) => l.(rows := Revoked(l.rows, id, None, at)))
    case RefreshOp(tokenHash, users, minted, clock) =>
      var (rows, issued) := RefreshRows(l.rows, users, tokenHash, minted, clock);
      var from := FindActive(l.rows, tokenHash, clock.read);
      Ledger(rows, if issued.Some? && from.Some? && from.value < |l.origins| then l.origins + [l.origins[from.value]]
          else l.origins)
  }

  function ApplyAll(l: Ledger, ops: seq<Op>): Ledger
    decreases |ops|
  {
    if ops == [] then l else ApplyAll(Apply(l, ops[0]), ops[1..])
  }

  /** Every login keeps at most one unrevoked token. */
  predicate OneLivePerLogin(l: Ledger) {
    && |l.origins| == |l.rows|
    && (forall i :: 0 <= i < |l.origins| ==> l.origins[i] <= i)
    && forall i, j :: 0 <= i < j < |l.rows| && l.origins[i] == l.origins[j] ==>
         l.rows[i].revokedAt.Some? || l.rows[j].revokedAt.Some?
  }

  lemma ApplyKeepsOneLive(l: Ledger, op: Op)
    requires OneLivePerLogin(l)
    ensures OneLivePerLogin(Apply(l, op))
    ensures Keeps(l.rows, Apply(l, op).rows)
  {
    match op {
      case LoginOp(userId, minted, at) =>
      case LogoutOp(tokenHash, at) =>
      case RefreshOp(tokenHash, users, minted, clock) =>
        var from := FindActive(l.rows, tokenHash, clock.read);
        if from.Some? && l.rows[from.value].userId in users {
          RotationKeepsOneLive(l, from.value, tokenHash, users, minted, clock);
        }
    }
  }

  /** A rotation replaces the one live token of its login. */
  lemma RotationKeepsOneLive(l: Ledger, existing: nat, tokenHash: nat, users: set<nat>, minted: Issue, clock: Clock)
    requires OneLivePerLogin(l)
    requires FindActive(l.rows, tokenHash, clock.read) == Some(existing) && l.rows[existing].userId in users
    ensures OneLivePerLogin(Apply(l, RefreshOp(tokenHash, users, minted, clock)))
    ensures Keeps(l.rows, Apply(l, RefreshOp(tokenHash, users, minted, clock)).rows)
  {
    var after := Apply(l, RefreshOp(tokenHash, users, minted, clock));
    var n := |l.rows|;
    assert |after.rows| == n + 1 && after.rows[existing].revokedAt.Some?;
    assert forall i :: 0 <= i < n && i != existing ==> after.rows[i] == l.rows[i];
    assert after.origins == l.origins + [l.origins[existing]];
    forall i, j | 0 <= i < j < |after.rows| && after.origins[i] == after.origins[j]
      ensures after.rows[i].revokedAt.Some? || after.rows[j].revokedAt.Some?
    {
      if j == n && i != existing {
        assert l.origins[i] == l.origins[existing];
        assert l.rows[existing].revokedAt.None?;
      }
    }
  }

  /** In every sequence of calls that do not overlap, each login keeps at most one unrevoked token. */
  lemma {:induction false} SequentialKeepsOneLive(l: Ledger, ops: seq<Op>)
    requires OneLivePerLogin(l)
    ensures OneLivePerLogin(ApplyAll(l, ops))
    ensures Keeps(l.rows, ApplyAll(l, ops).rows)
    decreases |ops|
  {
    if ops != [] {
      ApplyKeepsOneLive(l, ops[0]);
      SequentialKeepsOneLive(Apply(l, ops[0]), ops[1..]);
    }
  }

  lemma ApplyKeeps(l: Ledger, op: Op)
    ensures Keeps(l.rows, Apply(l, op).rows)
  {
  }

  lemma {:induction false} ApplyAllKeeps(l: Ledger, ops: seq<Op>)
    ensures Keeps(l.rows, ApplyAll(l, ops).rows)
    decreases |ops|
  {
    if ops != [] {
      ApplyKeeps(l, ops[0]);
      ApplyAllKeeps(Apply(l, ops[0]), ops[1..]);
    }
  }

  /** When calls do not overlap, a token that was refreshed is refused ever after. */
  lemma RefreshesAtMostOnce(l: Ledger, first: Op, ops: seq<Op>, users: set<nat>, minted: Issue, clock: Clock)
    requires first.RefreshOp?
    requires RefreshRows(l.rows, first.users, first.tokenHash, first.minted, first.clock).1.Some?
    requires var rows := ApplyAll(Apply(l, first), ops).rows;
             forall i, j :: 0 <= i < j < |rows| ==> rows[i].tokenHash != rows[j].tokenHash
    ensures var rows := ApplyAll(Apply(l, first), ops).rows;
            RefreshRows(rows, users, first.tokenHash, minted, clock) == (rows, None)
  {
    var existing := FindActive(l.rows, first.tokenHash, first.clock.read).value;
    var after := Apply(l, first).rows;
    assert after[existing].revokedAt.Some? && after[existing].tokenHash == first.tokenHash;
    ApplyAllKeeps(Apply(l, first), ops);
    var rows := ApplyAll(Apply(l, first), ops).rows;
    assert rows[existing].revokedAt.Some? && rows[existing].tokenHash == first.tokenHash;
  }

  // ---- Whole calls are runs ------------------------------------------------------------------------------

  /** One call advanced at a given time. */
  function At(now: Time, at: Time, call: nat, minted: Issue): seq<Event>
    requires now <= at
  {
    [Tick(at - now), Advance(call, minted)]
  }

  function AdvancedAt(s: State, at: Time, call: nat, minted: Issue): State {
    Step(s.(now := at), Advance(call, minted))
  }

  lemma RunAt(s: State, at: Time, call: nat, minted: Issue, later: seq<Event>)
    requires s.now <= at
    ensures Run(s, At(s.now, at, call, minted) + later) == Run(AdvancedAt(s, at, call, minted), later)
  {
    var tick, advance := Tick(at - s.now), Advance(call, minted);
    TickTo(s, at);
    RunFirst(s, tick, [advance] + later);
    RunFirst(s.(now := at), advance, later);
    assert [tick, advance] + later == [tick] + ([advance] + later);
  }

  lemma TickTo(s: State, at: Time)
    requires s.now <= at
    ensures Step(s, Tick(at - s.now)) == s.(now := at)
  {
  }

  predicate InOrder(now: Time, clock: Clock) {
    now <= clock.read <= clock.issue <= clock.reread <= clock.touch <= clock.revoke
  }

  /** How a refresh call ends over the rows it found. */
  function Outcome(rows: seq<Row>, users: set<nat>, tokenHash: nat, minted: Issue, clock: Clock): Call {
    match FindActive(rows, tokenHash, clock.read)
    case None => Rejected
    case Some(existing) => if rows[existing].userId in users then Refreshed(existing, |rows|) else Dropped(existing)
  }

  /** From the user check on: the call drops the token or rotates it. */
  lemma RestAlone(s: State, call: nat, existing: nat, minted: Issue, clock: Clock) returns (events: seq<Event>)
    requires call < |s.calls| && s.calls[call] == Found(existing) && existing < |s.rows|
    requires IsFreshHash(s.rows, minted.tokenHash) && s.now == clock.read && InOrder(s.now, clock)
    ensures var end, known := Run(s, events), s.rows[existing].userId in s.users;
            && end.calls == s.calls[call := if known then Refreshed(existing, |s.rows|) else Dropped(existing)]
            && end.users == s.users && s.now <= end.now <= clock.revoke
            && end.rows == if !known then Revoked(s.rows, existing, None, clock.revoke)
                           else
                             var issued := Created(s.rows, s.rows[existing].userId, minted.tokenHash,
                                                   clock.issue + minted.lifetime, clock.issue);
                             Revoked(Touched(issued, existing, clock.touch), existing,
                                     FindActive(issued, minted.tokenHash, clock.reread), clock.revoke)
  {
    var s1 := AdvancedAt(s, clock.read, call, minted);
    if s.rows[existing].userId !in s.users {
      events := At(clock.read, clock.read, call, minted) + (At(clock.read, clock.revoke, call, minted) + []);
      RunAt(s, clock.read, call, minted, At(clock.read, clock.revoke, call, minted) + []);
      RunAt(s1, clock.revoke, call, minted, []);
    } else {
      events := RotateAlone(s1, call, existing, minted, clock);
      RunAt(s, clock.read, call, minted, events);
      events := At(clock.read, clock.read, call, minted) + events;
    }
  }

  /** The four steps of a rotation, on the states alone. */
  lemma RotateStates(s: State, call: nat, existing: nat, minted: Issue, clock: Clock)
    requires call < |s.calls| && s.calls[call] == Issuing(existing) && existing < |s.rows|
    requires IsFreshHash(s.rows, minted.tokenHash) && s.now == clock.read && InOrder(s.now, clock)
    ensures var s1 := AdvancedAt(s, clock.issue, call, minted);
            var s2 := AdvancedAt(s1, clock.reread, call, minted);
            var s3 := AdvancedAt(s2, clock.touch, call, minted);
            var end := AdvancedAt(s3, clock.revoke, call, minted);
            var expiresAt := clock.issue + minted.lifetime;
            var issued := Created(s.rows, s.rows[existing].userId, minted.tokenHash, expiresAt, clock.issue);
            && end.calls == s.calls[call := Refreshed(existing, |s.rows|)] && end.users == s.users
            && end.now == clock.revoke
            && end.rows == Revoked(Touched(issued, existing, clock.touch), existing,
                                   FindActive(issued, minted.tokenHash, clock.reread), clock.revoke)
  {
    var s1 := AdvancedAt(s, clock.issue, call, minted);
    assert s1.rows[|s.rows|].tokenHash == minted.tokenHash;
  }

  lemma RotateAlone(s: State, call: nat, existing: nat, minted: Issue, clock: Clock) returns (events: seq<Event>)
    requires call < |s.calls| && s.calls[call] == Issuing(existing) && existing < |s.rows|
    requires IsFreshHash(s.rows, minted.tokenHash) && s.now == clock.read && InOrder(s.now, clock)
    ensures var end := Run(s, events);
            var expiresAt := clock.issue + minted.lifetime;
            var issued := Created(s.rows, s.rows[existing].userId, minted.tokenHash, expiresAt, clock.issue);
            && end.calls == s.calls[call := Refreshed(existing, |s.rows|)] && end.users == s.users
            && end.now == clock.revoke
            && end.rows == Revoked(Touched(issued, existing, clock.touch), existing,
                                   FindActive(issued, minted.tokenHash, clock.reread), clock.revoke)
  {
    var s1 := AdvancedAt(s, clock.issue, call, minted);
    var s2 := AdvancedAt(s1, clock.reread, call, minted);
    var s3 := AdvancedAt(s2, clock.touch, call, minted);
    var s4 := AdvancedAt(s3, clock.revoke, call, minted);
    var last := At(clock.touch, clock.revoke, call, minted) + [];
    var third := At(clock.reread, clock.touch, call, minted) + last;
    var second := At(clock.issue, clock.reread, call, minted) + third;
    events := At(clock.read, clock.issue, call, minted) + second;
    RunAt(s, clock.issue, call, minted, second);
    RunAt(s1, clock.reread, call, minted, third);
    RunAt(s2, clock.touch, call, minted, last);
    RunAt(s3, clock.revoke, call, minted, []);
    RotateStates(s, call, existing, minted, clock);
  }

  /** Reading the token changes nothing but the call. */
  lemma ReadAlone(s: State, call: nat, tokenHash: nat, minted: Issue, at: Time)
    requires call < |s.calls| && s.calls[call] == Refreshing(tokenHash)
    ensures AdvancedAt(s, at, call, minted)
            == State(at, s.users, s.rows, s.calls[call :=
                 match FindActive(s.rows, tokenHash, at) case None => Rejected case Some(existing) => Found(existing)])
  {
  }

  /** A refresh call advanced alone does exactly what the whole call does, at the same clock readings. */
  lemma RefreshAlone(s: State, call: nat, tokenHash: nat, minted: Issue, clock: Clock) returns (events: seq<Event>)
    requires call < |s.calls| && s.calls[call] == Refreshing(tokenHash)
    requires IsFreshHash(s.rows, minted.tokenHash) && InOrder(s.now, clock)
    ensures var end := Run(s, events);
            && end.rows == RefreshRows(s.rows, s.users, tokenHash, minted, clock).0
            && end.calls == s.calls[call := Outcome(s.rows, s.users, tokenHash, minted, clock)]
            && end.users == s.users && s.now <= end.now <= clock.revoke
  {
    var s1, found := AdvancedAt(s, clock.read, call, minted), FindActive(s.rows, tokenHash, clock.read);
    ReadAlone(s, call, tokenHash, minted, clock.read);
    if found.None? {
      events := [];
      assert Run(s1, events) == s1;
    } else {
      events := RestAlone(s1, call, found.value, minted, clock);
      assert s1.calls[call := Outcome(s.rows, s.users, tokenHash, minted, clock)]
          == s.calls[call := Outcome(s.rows, s.users, tokenHash, minted, clock)];
    }
    RunAt(s, clock.read, call, minted, events);
    events := At(s.now, clock.read, call, minted) + events;
  }

  /** So does a logout. */
  lemma LogoutAlone(s: State, call: nat, tokenHash: nat, at: Time) returns (events: seq<Event>)
    requires call < |s.calls| && s.calls[call] == LoggingOut(tokenHash) && s.now <= at
    ensures var end, found := Run(s, events), FindActive(s.rows, tokenHash, at);
            && end.rows == (if found.Some? then Revoked(s.rows, found.value, None, at) else s.rows)
            && end.calls == s.calls[call := LoggedOut(found)] && end.users == s.users && end.now == at
  {
    var minted := Issue(0, 0);
    var s1 := AdvancedAt(s, at, call, minted);
    events := [];
    if FindActive(s.rows, tokenHash, at).Some? {
      RunAt(s1, at, call, minted, []);
      events := At(at, at, call, minted) + [];
    }
    RunAt(s, at, call, minted, events);
    events := At(s.now, at, call, minted) + events;
  }

  /** The calls are made in the order of their clock readings, and each mints a hash no token has. */
  predicate Feasible(l: Ledger, now: Time, op: Op) {
    match op
    case LoginOp(_, minted, at) => now <= at && IsFreshHash(l.rows, minted.tokenHash)
    case RefreshOp(_, _, minted, clock) => InOrder(now, clock) && IsFreshHash(l.rows, minted.tokenHash)
    case LogoutOp(_, at) => now <= at
  }

  function EndOf(op: Op): Time { if op.RefreshOp? then op.clock.revoke else op.at }

  predicate AllFeasible(l: Ledger, now: Time, ops: seq<Op>)
    decreases |ops|
  {
    ops != [] ==> Feasible(l, now, ops[0]) && AllFeasible(Apply(l, ops[0]), EndOf(ops[0]), ops[1..])
  }

  lemma RunFirst(s: State, e: Event, later: seq<Event>)
    ensures Run(s, [e] + later) == Run(Step(s, e), later)
  {
    assert ([e] + later)[1..] == later;
  }

  lemma OpIsRun(l: Ledger, s: State, op: Op) returns (events: seq<Event>)
    requires l.rows == s.rows && Feasible(l, s.now, op)
    ensures Run(s, events).rows == Apply(l, op).rows && Run(s, events).now <= EndOf(op)
  {
    match op
    case LoginOp(userId, minted, at) =>
      events := [Tick(at - s.now)] + ([Login(userId, minted)] + []);
      RunFirst(s, Tick(at - s.now), [Login(userId, minted)] + []);
      RunFirst(s.(now := at), Login(userId, minted), []);
    case LogoutOp(tokenHash, at) =>
      var s1 := Step(s, StartLogout(tokenHash));
      events := LogoutAlone(s1, |s.calls|, tokenHash, at);
      RunFirst(s, StartLogout(tokenHash), events);
      events := [StartLogout(tokenHash)] + events;
    case RefreshOp(tokenHash, users, minted, clock) =>
      var s1 := Step(s, SetUsers(users));
      var s2 := Step(s1, StartRefresh(tokenHash));
      events := RefreshAlone(s2, |s.calls|, tokenHash, minted, clock);
      RunFirst(s1, StartRefresh(tokenHash), events);
      RunFirst(s, SetUsers(users), [StartRefresh(tokenHash)] + events);
      events := [SetUsers(users)] + ([StartRefresh(tokenHash)] + events);
  }

  lemma RunThen(s: State, first: seq<Event>, e: Event, later: seq<Event>)
    ensures Run(s, first + ([e] + later)) == Run(Step(Run(s, first), e), later)
  {
    RunAppend(s, first, [e] + later);
    RunFirst(Run(s, first), e, later);
  }

  /** Every sequence of whole calls is a run of the interleaved system. */
  lemma {:induction false} WholeCallsAreRuns(l: Ledger, s: State, ops: seq<Op>) returns (events: seq<Event>)
    requires l.rows == s.rows && AllFeasible(l, s.now, ops)
    ensures Run(s, events).rows == ApplyAll(l, ops).rows
    decreases |ops|
  {
    events := [];
    if ops != [] {
      var first := OpIsRun(l, s, ops[0]);
      var after := Run(s, first);
      var wait := Tick(EndOf(ops[0]) - after.now);
      var rest := WholeCallsAreRuns(Apply(l, ops[0]), Step(after, wait), ops[1..]);
      events := first + ([wait] + rest);
      RunThen(s, first, wait, rest);
    }
  }

  /**
   A run from the start in which two refreshes of one token overlap, both exchange it, and two live
   tokens of one login are left.
   */
  lemma OverlapLeavesTwoLive()
    ensures exists events :: var s := Run(START, events);
              && |s.rows| == 3 && s.calls == [Refreshed(0, 1), Refreshed(0, 2)]
              && s.rows[0].replacedBy == Some(1)
              && IsActive(s.rows[1], s.now) && IsActive(s.rows[2], s.now)
  {
    var a, b := Advance(0, Issue(101, 9)), Advance(1, Issue(102, 9));
    var events := [SetUsers({7}), Login(7, Issue(100, 9)), StartRefresh(100), StartRefresh(100)] + [a, b, a, b]
        + [a, b, a, b] + [a, b, a, b];
    var row := Row(7, 100, 9, 0, None, None, None);
    var s1 := State(0, {7}, [row], [Refreshing(100), Refreshing(100)]);
    var s2 := State(0, {7}, [row], [Issuing(0), Issuing(0)]);
    var next1, next2 := Row(7, 101, 9, 0, None, None, None), Row(7, 102, 9, 0, None, None, None);
    var s3 := State(0, {7}, [row, next1, next2], [Reread(0, 1, Some(1)), Reread(0, 2, Some(2))]);
    var used := row.(lastUsedAt := Some(0), revokedAt := Some(0), replacedBy := Some(1));
    var s4 := State(0, {7}, [used, next1, next2], [Refreshed(0, 1), Refreshed(0, 2)]);
    OverlapReads(s1, s2, a, b, row);
    OverlapIssues(s2, s3, a, b, row, next1, next2);
    OverlapRevokes(s3, s4, a, b, row, next1, next2);
    var opening := [SetUsers({7}), Login(7, Issue(100, 9)), StartRefresh(100), StartRefresh(100)];
    OverlapOpens(s1, row);
    RunAppend(START, opening + [a, b, a, b] + [a, b, a, b], [a, b, a, b]);
    RunAppend(START, opening + [a, b, a, b], [a, b, a, b]);
    RunAppend(START, opening, [a, b, a, b]);
    assert Run(START, events) == s4;
  }

  /** A login and two calls that are about to read its token. */
  lemma OverlapOpens(s: State, row: Row)
    requires row == Row(7, 100, 9, 0, None, None, None)
    requires s == State(0, {7}, [row], [Refreshing(100), Refreshing(100)])
    ensures Run(START, [SetUsers({7}), Login(7, Issue(100, 9)), StartRefresh(100), StartRefresh(100)]) == s
  {
    var users, login, refresh := SetUsers({7}), Login(7, Issue(100, 9)), StartRefresh(100);
    assert Step(START, users) == State(0, {7}, [], []);
    var started := State(0, {7}, [row], []);
    assert Step(State(0, {7}, [], []), login) == started;
    var once := State(0, {7}, [row], [Refreshing(100)]);
    assert Step(started, refresh) == once && Step(once, refresh) == s;
    RunFour(START, users, login, refresh, refresh);
  }

  lemma {:induction false} RunAppend(s: State, first: seq<Event>, second: seq<Event>)
    ensures Run(s, first + second) == Run(Run(s, first), second)
    decreases |first|
  {
    if first == [] {
      assert first + second == second;
    } else {
      assert (first + second)[1..] == first[1..] + second;
      RunAppend(Step(s, first[0]), first[1..], second);
    }
  }

  lemma RunFour(s: State, e1: Event, e2: Event, e3: Event, e4: Event)
    ensures Run(s, [e1, e2, e3, e4]) == Step(Step(Step(Step(s, e1), e2), e3), e4)
  {
    assert [e1, e2, e3, e4][1..] == [e2, e3, e4];
    assert [e2, e3, e4][1..] == [e3, e4];
    assert [e3, e4][1..] == [e4];
    assert [e4][1..] == [];
    var t := Step(Step(Step(s, e1), e2), e3);
    assert Run(t, [e4]) == Step(t, e4);
    assert Run(Step(Step(s, e1), e2), [e3, e4]) == Run(t, [e4]);
  }

  /** Both calls read the same unrevoked token and find its user. */
  lemma OverlapReads(s: State, end: State, a: Event, b: Event, row: Row)
    requires a == Advance(0, Issue(101, 9)) && b == Advance(1, Issue(102, 9))
    requires row == Row(7, 100, 9, 0, None, None, None)
    requires s == State(0, {7}, [row], [Refreshing(100), Refreshing(100)])
    requires end == State(0, {7}, [row], [Issuing(0), Issuing(0)])
    ensures Run(s, [a, b, a, b]) == end
  {
    RunFour(s, a, b, a, b);
    assert FindActive([row], 100, 0) == Some(0);
    var t := Step(s, a);
    assert t == s.(calls := [Found(0), Refreshing(100)]);
    assert Step(t, b) == s.(calls := [Found(0), Found(0)]);
    assert Step(Step(t, b), a) == s.(calls := [Issuing(0), Found(0)]);
  }

  /** Both calls issue a successor of their own. */
  lemma OverlapIssues(s: State, end: State, a: Event, b: Event, row: Row, next1: Row, next2: Row)
    requires a == Advance(0, Issue(101, 9)) && b == Advance(1, Issue(102, 9))
    requires row == Row(7, 100, 9, 0, None, None, None)
    requires next1 == Row(7, 101, 9, 0, None, None, None) && next2 == Row(7, 102, 9, 0, None, None, None)
    requires s == State(0, {7}, [row], [Issuing(0), Issuing(0)])
    requires end == State(0, {7}, [row, next1, next2], [Reread(0, 1, Some(1)), Reread(0, 2, Some(2))])
    ensures Run(s, [a, b, a, b]) == end
  {
    RunFour(s, a, b, a, b);
    var rows := [row, next1, next2];
    var t := Step(s, a);
    assert t == State(0, {7}, [row, next1], [Issued(0, 1), Issuing(0)]);
    var u := Step(t, b);
    assert u == State(0, {7}, rows, [Issued(0, 1), Issued(0, 2)]);
    assert rows[..2] == [row, next1];
    assert FindActive(rows, 102, 0) == Some(2);
    assert FindActive([row, next1], 101, 0) == Some(1) && FindActive(rows, 101, 0) == Some(1);
    assert Step(u, a) == State(0, {7}, rows, [Reread(0, 1, Some(1)), Issued(0, 2)]);
  }

  /** The first revocation wins; the second writes nothing, yet its call returns its token. */
  lemma OverlapRevokes(s: State, end: State, a: Event, b: Event, row: Row, next1: Row, next2: Row)
    requires a == Advance(0, Issue(101, 9)) && b == Advance(1, Issue(102, 9))
    requires row == Row(7, 100, 9, 0, None, None, None)
    requires next1 == Row(7, 101, 9, 0, None, None, None) && next2 == Row(7, 102, 9, 0, None, None, None)
    requires s == State(0, {7}, [row, next1, next2], [Reread(0, 1, Some(1)), Reread(0, 2, Some(2))])
    requires end == State(0, {7}, [row.(lastUsedAt := Some(0), revokedAt := Some(0), replacedBy := Some(1)), next1,
              next2],
                          [Refreshed(0, 1), Refreshed(0, 2)])
    ensures Run(s, [a, b, a, b]) == end
  {
    RunFour(s, a, b, a, b);
    var touched := [row.(lastUsedAt := Some(0)), next1, next2];
    var t := Step(s, a);
    assert t == State(0, {7}, touched, [Marked(0, 1, Some(1)), Reread(0, 2, Some(2))]);
    var u := Step(t, b);
    assert u == State(0, {7}, touched, [Marked(0, 1, Some(1)), Marked(0, 2, Some(2))]);
    var v := Step(u, a);
    assert v == State(0, {7}, end.rows, [Refreshed(0, 1), Marked(0, 2, Some(2))]);
    assert Step(v, b) == end;
  }

  // ---- How long a token can be used ------------------------------------------------------------------

  predicate DistinctHashes(rows: seq<Row>) {
    forall i, j :: 0 <= i < j < |rows| ==> rows[i].tokenHash != rows[j].tokenHash
  }

  /** A lookup finds a token exactly while it is neither revoked nor expired. */
  lemma LookupIff(rows: seq<Row>, tokenHash: nat, now: Time, i: nat)
    requires DistinctHashes(rows)
    ensures FindActive(rows, tokenHash, now) == Some(i)
            <==> && i < |rows| && rows[i].tokenHash == tokenHash
                 && rows[i].revokedAt.None? && now < rows[i].expiresAt
  {
    if i < |rows| { assert rows[i] in rows; }
  }

  /** When a token was issued, to whom if by a login, and for how long. */
  datatype Minting = Minting(at: Time, owner: Option<nat>, minted: Issue)

  /** The tokens issued along a run, read off its events. */
  function Mintings(s: State, events: seq<Event>): seq<Minting>
    decreases |events|
  {
    if events == [] then []
    else Minted(s, events[0]) + Mintings(Step(s, events[0]), events[1..])
  }

  function Minted(s: State, e: Event): seq<Minting> {
    if |Step(s, e).rows| > |s.rows| && (e.Login? || e.Advance?)
    then [Minting(s.now, if e.Login? then Some(e.userId) else None, e.minted)]
    else []
  }

  /** A row is what was minted for it; whether it has been used or revoked is another matter. */
  predicate MintedAs(row: Row, m: Minting) {
    && row.tokenHash == m.minted.tokenHash && row.createdAt == m.at && row.expiresAt == m.at + m.minted.lifetime
    && (m.owner.Some? ==> row.userId == m.owner.value)
  }

  lemma StepMints(s: State, e: Event)
    requires Inv(s)
    ensures var after, minted := Step(s, e).rows, Minted(s, e);
            && |minted| <= 1 && |after| == |s.rows| + |minted|
            && (minted != [] ==> MintedAs(after[|s.rows|], minted[0]))
  {
    StepKeeps(s, e);
  }

  lemma KeepsMinted(before: seq<Row>, after: seq<Row>, i: nat, m: Minting)
    requires Keeps(before, after) && i < |before| && MintedAs(before[i], m)
    ensures i < |after| && MintedAs(after[i], m)
  {
  }

  lemma FirstMints(s: State, e: Event, later: seq<Event>)
    requires Inv(s) && Minted(s, e) != []
    ensures |s.rows| < |Run(Step(s, e), later).rows| && MintedAs(Run(Step(s, e), later).rows[|s.rows|], Minted(s, e)[0])
  {
    StepMints(s, e);
    WrittenOnce(Step(s, e), later);
    KeepsMinted(Step(s, e).rows, Run(Step(s, e), later).rows, |s.rows|, Minted(s, e)[0]);
  }

  /** The rows from a position on are what was minted for them. */
  predicate AllMinted(rows: seq<Row>, from: nat, mintings: seq<Minting>) {
    |rows| == from + |mintings| && forall i :: from <= i < |rows| ==> MintedAs(rows[i], mintings[i - from])
  }

  lemma OneMoreMinted(rows: seq<Row>, from: nat, minted: seq<Minting>, rest: seq<Minting>)
    requires |minted| <= 1 && AllMinted(rows, from + |minted|, rest)
    requires minted != [] ==> from < |rows| && MintedAs(rows[from], minted[0])
    ensures AllMinted(rows, from, minted + rest)
  {
    var all := minted + rest;
    forall i | from <= i < |rows|
      ensures MintedAs(rows[i], all[i - from])
    {
      if i == from && minted != [] {
        assert all[0] == minted[0];
      } else {
        assert all[i - from] == rest[i - from - |minted|];
      }
    }
  }

  lemma {:induction false} RunMints(s: State, events: seq<Event>)
    requires Inv(s)
    ensures AllMinted(Run(s, events).rows, |s.rows|, Mintings(s, events))
    decreases |events|
  {
    if events != [] {
      var next, minted, later := Step(s, events[0]), Minted(s, events[0]), events[1..];
      StepInv(s, events[0]);
      StepMints(s, events[0]);
      RunMints(next, later);
      if minted != [] { FirstMints(s, events[0], later); }
      OneMoreMinted(Run(next, later).rows, |s.rows|, minted, Mintings(next, later));
    }
  }

  /**
   In every run a token can be looked up exactly until its lifetime is over, counted from the moment it
   was issued, or it is revoked.
   */
  lemma FoundForItsLifetime(events: seq<Event>, i: nat, at: Time)
    requires i < |Run(START, events).rows|
    ensures var rows := Run(START, events).rows;
            && |Mintings(START, events)| == |rows|
            && var m := Mintings(START, events)[i];
               && rows[i].tokenHash == m.minted.tokenHash && (m.owner.Some? ==> rows[i].userId == m.owner.value)
               && (FindActive(rows, m.minted.tokenHash, at) == Some(i)
                   <==> rows[i].revokedAt.None? && at < m.at + m.minted.lifetime)
  {
    RunInv(START, events);
    RunMints(START, events);
    assert MintedAs(Run(START, events).rows[i], Mintings(START, events)[i]);
    LookupIff(Run(START, events).rows, Mintings(START, events)[i].minted.tokenHash, at, i);
  }

  /**
   What a call about to read decides, in every run: it goes on with token `i` exactly when that one has
   the hash, is not revoked and expires later, and gives up when there is none.
   */
  lemma ReadDecides(events: seq<Event>, call: nat, minted: Issue, i: nat)
    requires call < |Run(START, events).calls|
    requires Run(START, events).calls[call].Refreshing? || Run(START, events).calls[call].LoggingOut?
    ensures var s := Run(START, events);
            var tokenHash, c := s.calls[call].tokenHash, Step(s, Advance(call, minted)).calls[call];
            && Step(s, Advance(call, minted)).rows == s.rows
            && (c == Found(i) || c == LogoutFound(i)
                <==> && i < |s.rows| && s.rows[i].tokenHash == tokenHash
                     && s.rows[i].revokedAt.None? && s.now < s.rows[i].expiresAt)
            && (c == Rejected || c == LoggedOut(None)
                <==> forall k :: 0 <= k < |s.rows| && s.rows[k].tokenHash == tokenHash ==>
                       s.rows[k].revokedAt.Some? || s.rows[k].expiresAt <= s.now)
  {
    var s := Run(START, events);
    RunInv(START, events);
    LookupIff(s.rows, s.calls[call].tokenHash, s.now, i);
    assert forall k :: 0 <= k < |s.rows| ==> s.rows[k] in s.rows;
  }

  /** A whole refresh with an expired token changes nothing and answers nothing. */
  lemma ExpiredIsRefused(rows: seq<Row>, users: set<nat>, i: nat, minted: Issue, clock: Clock)
    requires DistinctHashes(rows) && i < |rows| && rows[i].expiresAt <= clock.read
    ensures RefreshRows(rows, users, rows[i].tokenHash, minted, clock) == (rows, None)
  {
    LookupIff(rows, rows[i].tokenHash, clock.read, i);
  }

  /** The rows differ in this one at most. */
  predicate OnlyDiffersAt(before: seq<Row>, after: seq<Row>, i: nat) {
    |before| <= |after| && forall k :: 0 <= k < |before| && k != i ==> after[k] == before[k]
  }

  /**
   A whole refresh with a token that is neither revoked nor expired, of a known user: it answers with a
   new token of that user, minted as asked, and marks the old one used and revoked at the readings of the
   clock, in favour of the new one as long as that has not expired by then itself.
   */
  lemma ExchangeWrites(rows: seq<Row>, users: set<nat>, i: nat, minted: Issue, clock: Clock)
    requires DistinctHashes(rows) && IsFreshHash(rows, minted.tokenHash)
    requires i < |rows| && rows[i].revokedAt.None? && clock.read < rows[i].expiresAt && rows[i].userId in users
    ensures var (after, answer) := RefreshRows(rows, users, rows[i].tokenHash, minted, clock);
            && answer == Some(|rows|) && |after| == |rows| + 1 && OnlyDiffersAt(rows, after, i)
            && after[|rows|].revokedAt.None?
            && MintedAs(after[|rows|], Minting(clock.issue, Some(rows[i].userId), minted))
            && after[i].lastUsedAt == Some(clock.touch) && after[i].revokedAt == Some(clock.revoke)
            && after[i].expiresAt == rows[i].expiresAt
            && (clock.reread < clock.issue + minted.lifetime ==> after[i].replacedBy == Some(|rows|))
  {
    LookupIff(rows, rows[i].tokenHash, clock.read, i);
    var issued := Created(rows, rows[i].userId, minted.tokenHash, clock.issue + minted.lifetime, clock.issue);
    NewHashIsDistinct(rows, issued);
    LookupIff(issued, minted.tokenHash, clock.reread, |rows|);
  }

  lemma NewHashIsDistinct(rows: seq<Row>, issued: seq<Row>)
    requires DistinctHashes(rows) && |issued| == |rows| + 1 && issued[..|rows|] == rows
    requires IsFreshHash(rows, issued[|rows|].tokenHash)
    ensures DistinctHashes(issued)
  {
    assert forall k :: 0 <= k < |rows| ==> issued[k] == issued[..|rows|][k] && rows[k] in rows;
  }

  /** With a user that is gone it revokes the token, without a successor, and answers nothing. */
  lemma UnknownUserRevokes(rows: seq<Row>, users: set<nat>, i: nat, minted: Issue, clock: Clock)
    requires DistinctHashes(rows)
    requires i < |rows| && rows[i].revokedAt.None? && clock.read < rows[i].expiresAt && rows[i].userId !in users
    ensures var (after, answer) := RefreshRows(rows, users, rows[i].tokenHash, minted, clock);
            && answer == None && |after| == |rows| && OnlyDiffersAt(rows, after, i)
            && after[i] == rows[i].(revokedAt := Some(clock.revoke))
  {
    LookupIff(rows, rows[i].tokenHash, clock.read, i);
  }
}
