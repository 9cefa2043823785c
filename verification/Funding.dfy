// The four-eye funding workflow: any number of admins approving and rejecting
// requests at once, one step per SQL statement, row locks held to commit or
// rollback, and a failure possible before every statement.
module Funding {
  import opened Options

  datatype Direction = Deposit | Withdrawal

  datatype Status = Pending | Approved | Rejected | Cancelled

  datatype Request = Request(fund: nat, direction: Direction, amount: real, requestedBy: nat, status: Status,
                             approvedBy: Option<nat>, rejectedBy: Option<nat>, entryId: Option<nat>)

  // A cash ledger row; `key` is the request its idempotency key is built from.
  datatype Entry = Entry(id: nat, fund: nat, kind: Direction, amount: real, key: nat)

  datatype Db = Db(requests: map<nat, Request>, capital: map<nat, real>, ledger: seq<Entry>)

  datatype Outcome = Committed | NotFound | NotPending | FourEyeViolation | InsufficientCash | StateConflict | Failed

  // The statement a handler runs next.
  datatype Pc =
    | Lookup | LockFund | Append | UpdateFund | MarkApproved | CommitApproval
    | Read | MarkRejected | CommitRejection
    | Done(outcome: Outcome)

  // A handler and its transaction: the row it read and the writes it has buffered.
  datatype Tx = Tx(pc: Pc, req: nat, actor: nat, row: Request,
                   entry: Option<Entry>, entryId: nat, delta: real, mark: Option<Request>)

  datatype State = State(db: Db, txs: seq<Tx>, reqLock: map<nat, nat>, fundLock: map<nat, nat>, idBase: nat)

  datatype Label =
    | Advance(tx: nat)
    | Fail(failing: nat)
    | Cancel(req: nat, user: nat)
    | Create(id: nat, request: Request)

  const SLACK := 0.0001

  function Signed(r: Request): real {
    if r.direction == Deposit then r.amount else -r.amount
  }

  function SumFor(ledger: seq<Entry>, fund: nat): real {
    if ledger == [] then 0.0 else
      var e := ledger[|ledger| - 1];
      SumFor(ledger[..|ledger| - 1], fund) + if e.fund == fund then e.amount else 0.0
  }

  // A pending request as Create inserts it.
  predicate Fresh(r: Request) {
    r.amount > 0.0 && r.status == Pending && r.approvedBy == None && r.rejectedBy == None && r.entryId == None
  }

  // --- Steps -----------------------------------------------------------------

  // Locks held by a transaction are released when it ends.
  function Unlock(locks: map<nat, nat>, i: nat): map<nat, nat> {
    map r | r in locks && locks[r] != i :: locks[r]
  }

  function Ended(t: Tx, outcome: Outcome): Tx {
    t.(pc := Done(outcome), entry := None, delta := 0.0, mark := None)
  }

  function End(s: State, i: nat, db: Db, outcome: Outcome): State
    requires i < |s.txs|
  {
    s.(db := db, txs := s.txs[i := Ended(s.txs[i], outcome)],
       reqLock := Unlock(s.reqLock, i), fundLock := Unlock(s.fundLock, i))
  }

  function Abort(s: State, i: nat, outcome: Outcome): State
    requires i < |s.txs|
  {
    End(s, i, s.db, outcome)
  }

  function Move(s: State, i: nat, t: Tx): State
    requires i < |s.txs|
  {
    s.(txs := s.txs[i := t])
  }

  // The committed ledger row a key conflicts with, if any.
  function Conflict(ledger: seq<Entry>, fund: nat, key: nat): Option<nat> {
    if ledger == [] then None
    else
      var e := ledger[|ledger| - 1];
      if e.fund == fund && e.key == key then Some(e.id) else Conflict(ledger[..|ledger| - 1], fund, key)
  }

  // Applies a transaction's buffered writes.
  function Commit(db: Db, t: Tx): Db {
    Db(if t.mark.Some? then db.requests[t.req := t.mark.value] else db.requests,
       if t.delta != 0.0 && t.row.fund in db.capital
       then db.capital[t.row.fund := db.capital[t.row.fund] + t.delta] else db.capital,
       if t.entry.Some? then db.ledger + [t.entry.value] else db.ledger)
  }

  // SELECT ... FOR UPDATE of the request row, then the handler's checks.
  function DoLookup(s: State, i: nat): State
    requires i < |s.txs|
  {
    var t := s.txs[i];
    if t.req !in s.db.requests then Abort(s, i, NotFound)
    else
      var row := s.db.requests[t.req];
      if row.status != Pending then Abort(s, i, NotPending)
      else if row.requestedBy == t.actor then Abort(s, i, FourEyeViolation)
      else
        Move(s, i, t.(row := row, pc := if row.direction == Withdrawal then LockFund else Append))
          .(reqLock := s.reqLock[t.req := i])
  }

  // SELECT current_capital ... FOR UPDATE, withdrawals only.
  function DoLockFund(s: State, i: nat): State
    requires i < |s.txs|
  {
    var t := s.txs[i];
    if t.row.fund !in s.db.capital then Abort(s, i, Failed)
    else if s.db.capital[t.row.fund] < t.row.amount - SLACK then Abort(s, i, InsufficientCash)
    else Move(s, i, t.(pc := Append)).(fundLock := s.fundLock[t.row.fund := i])
  }

  // INSERT ... ON CONFLICT DO NOTHING: a conflicting key yields the old row's id.
  function DoAppend(s: State, i: nat): State
    requires i < |s.txs|
  {
    var t := s.txs[i];
    var old' := Conflict(s.db.ledger, t.row.fund, t.req);
    var id := s.idBase + i;
    Move(s, i,
      if old'.Some? then t.(pc := UpdateFund, entryId := old'.value)
      else t.(pc := UpdateFund, entryId := id,
              entry := Some(Entry(id, t.row.fund, t.row.direction, Signed(t.row), t.req))))
  }

  function DoUpdateFund(s: State, i: nat): State
    requires i < |s.txs|
  {
    var t := s.txs[i];
    Move(s, i, t.(pc := MarkApproved, delta := Signed(t.row))).(fundLock := s.fundLock[t.row.fund := i])
  }

  function Approve(row: Request, actor: nat, entryId: nat): Request {
    row.(status := Approved, approvedBy := Some(actor), entryId := Some(entryId))
  }

  function Reject(row: Request, actor: nat): Request {
    row.(status := Rejected, rejectedBy := Some(actor))
  }

  // UPDATE ... WHERE status = 'pending'.
  function DoMarkApproved(s: State, i: nat): State
    requires i < |s.txs|
  {
    var t := s.txs[i];
    if t.req !in s.db.requests || s.db.requests[t.req].status != Pending then Abort(s, i, StateConflict)
    else Move(s, i, t.(pc := CommitApproval, mark := Some(Approve(s.db.requests[t.req], t.actor, t.entryId))))
  }

  // The reject handler's read, outside any transaction and without a lock.
  function DoRead(s: State, i: nat): State
    requires i < |s.txs|
  {
    var t := s.txs[i];
    if t.req !in s.db.requests then Abort(s, i, NotFound)
    else
      var row := s.db.requests[t.req];
      if row.status != Pending then Abort(s, i, NotPending)
      else if row.requestedBy == t.actor then Abort(s, i, FourEyeViolation)
      else Move(s, i, t.(row := row, pc := MarkRejected))
  }

  function DoMarkRejected(s: State, i: nat): State
    requires i < |s.txs|
  {
    var t := s.txs[i];
    if t.req !in s.db.requests || s.db.requests[t.req].status != Pending then Abort(s, i, StateConflict)
    else
      var row := s.db.requests[t.req];
      Move(s, i, t.(pc := CommitRejection, row := row, mark := Some(Reject(row, t.actor))))
        .(reqLock := s.reqLock[t.req := i])
  }

  function Free(locks: map<nat, nat>, key: nat, i: nat): bool {
    key !in locks || locks[key] == i
  }

  // An insert waits for an uncommitted insert of the same key.
  predicate KeyFree(s: State, i: nat)
    requires i < |s.txs|
  {
    forall j | 0 <= j < |s.txs| && j != i ::
      s.txs[j].entry.Some? ==>
        !(s.txs[j].entry.value.fund == s.txs[i].row.fund && s.txs[j].entry.value.key == s.txs[i].req)
  }

  // Whether a step can be taken now, rather than wait for a lock.
  predicate Enabled(s: State, l: Label) {
    match l
    case Advance(i) =>
      i < |s.txs| &&
      var t := s.txs[i];
      (match t.pc
       case Lookup => Free(s.reqLock, t.req, i)
       case LockFund => Free(s.fundLock, t.row.fund, i)
       case Append => KeyFree(s, i)
       case UpdateFund => Free(s.fundLock, t.row.fund, i)
       case MarkRejected => Free(s.reqLock, t.req, i)
       case Done(_) => false
       case _ => true)
    case Fail(i) => i < |s.txs| && !s.txs[i].pc.Done?
    case Cancel(req, user) =>
      && req in s.db.requests && req !in s.reqLock
      && s.db.requests[req].status == Pending && s.db.requests[req].requestedBy == user
    case Create(id, request) => id !in s.db.requests && Fresh(request) && request.fund in s.db.capital
  }

  function Next(s: State, l: Label): State
    requires Enabled(s, l)
  {
    match l
    case Advance(i) =>
      (match s.txs[i].pc
       case Lookup => DoLookup(s, i)
       case LockFund => DoLockFund(s, i)
       case Append => DoAppend(s, i)
       case UpdateFund => DoUpdateFund(s, i)
       case MarkApproved => DoMarkApproved(s, i)
       case CommitApproval => End(s, i, Commit(s.db, s.txs[i]), Committed)
       case Read => DoRead(s, i)
       case MarkRejected => DoMarkRejected(s, i)
       case CommitRejection => End(s, i, Commit(s.db, s.txs[i]), Committed)
       case Done(_) => s)
    case Fail(i) => Abort(s, i, Failed)
    case Cancel(req, user) =>
      s.(db := s.db.(requests := s.db.requests[req := s.db.requests[req].(status := Cancelled)]))
    case Create(id, request) => s.(db := s.db.(requests := s.db.requests[id := request]))
  }

  // A schedule; a step that would have to wait is passed over.
  function Exec(s: State, ls: seq<Label>): State {
    if ls == [] then s else
      var t := Exec(s, ls[..|ls| - 1]);
      var l := ls[|ls| - 1];
      if Enabled(t, l) then Next(t, l) else t
  }
}
