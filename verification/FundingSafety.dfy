// Safety of the funding workflow over every schedule: cash identity, one ledger
// row per approved request, final and independent decisions.
module FundingSafety {
  import opened Options
  import opened Funding

  predicate HoldsReq(pc: Pc) {
    pc.LockFund? || pc.Append? || pc.UpdateFund? || pc.MarkApproved? || pc.CommitApproval? || pc.CommitRejection?
  }

  predicate HoldsFund(t: Tx) {
    || ((t.pc.Append? || t.pc.UpdateFund?) && t.row.direction == Withdrawal)
    || t.pc.MarkApproved? || t.pc.CommitApproval?
  }

  // What a transaction has buffered, by where it stands.
  predicate Inserted(pc: Pc) {
    pc.UpdateFund? || pc.MarkApproved? || pc.CommitApproval?
  }

  function EntryFor(t: Tx, id: nat): Entry {
    Entry(id, t.row.fund, t.row.direction, Signed(t.row), t.req)
  }

  predicate Buffered(s: State, i: nat)
    requires i < |s.txs|
  {
    var t := s.txs[i];
    && t.entry == (if Inserted(t.pc) then Some(EntryFor(t, s.idBase + i)) else None)
    && (Inserted(t.pc) ==> t.entryId == s.idBase + i)
    && t.delta == (if t.pc.MarkApproved? || t.pc.CommitApproval? then Signed(t.row) else 0.0)
    && t.mark == (if t.pc.CommitApproval? then Some(Approve(t.row, t.actor, t.entryId))
                  else if t.pc.CommitRejection? then Some(Reject(t.row, t.actor)) else None)
  }

  // The row a transaction works on is the committed one, pending and not its own.
  predicate Reading(s: State, i: nat)
    requires i < |s.txs|
  {
    var t := s.txs[i];
    && (HoldsReq(t.pc) ==>
          && t.req in s.db.requests && s.db.requests[t.req] == t.row
          && t.row.status == Pending && t.row.requestedBy != t.actor)
    && (t.pc.MarkRejected? ==>
          t.req in s.db.requests && s.db.requests[t.req].requestedBy != t.actor)
    && (t.pc == Done(Committed) ==> Decided(s.db, t))
    && (HoldsFund(t) && t.row.direction == Withdrawal ==>
          t.row.fund in s.db.capital && s.db.capital[t.row.fund] >= t.row.amount - SLACK)
    && (t.pc.LockFund? ==> t.row.direction == Withdrawal)
  }

  // A committed handler's decision stands, under its actor's name.
  predicate Decided(db: Db, t: Tx) {
    && t.req in db.requests
    && var r := db.requests[t.req];
       || (r.status == Approved && r.approvedBy == Some(t.actor))
       || (r.status == Rejected && r.rejectedBy == Some(t.actor))
  }

  ghost predicate Locked(s: State) {
    && (forall r | r in s.reqLock ::
          s.reqLock[r] < |s.txs| && s.txs[s.reqLock[r]].req == r && HoldsReq(s.txs[s.reqLock[r]].pc))
    && (forall f | f in s.fundLock ::
          s.fundLock[f] < |s.txs| && s.txs[s.fundLock[f]].row.fund == f && HoldsFund(s.txs[s.fundLock[f]]))
    && (forall i | 0 <= i < |s.txs| && HoldsReq(s.txs[i].pc) ::
          s.txs[i].req in s.reqLock && s.reqLock[s.txs[i].req] == i)
    && (forall i | 0 <= i < |s.txs| && HoldsFund(s.txs[i]) ::
          s.txs[i].row.fund in s.fundLock && s.fundLock[s.txs[i].row.fund] == i)
  }

  // A request's record fits its status, and nobody decided their own.
  predicate RecordOk(r: Request) {
    && r.amount > 0.0
    && (r.approvedBy.Some? <==> r.status == Approved) && (r.entryId.Some? <==> r.status == Approved)
    && (r.rejectedBy.Some? <==> r.status == Rejected)
    && r.approvedBy != Some(r.requestedBy) && r.rejectedBy != Some(r.requestedBy)
  }

  ghost predicate RequestsOk(db: Db) {
    forall r | r in db.requests :: RecordOk(db.requests[r]) && db.requests[r].fund in db.capital
  }

  // A ledger row belongs to an approved request and carries its signed amount.
  predicate EntryOk(db: Db, e: Entry) {
    && e.key in db.requests
    && var r := db.requests[e.key];
       && r.status == Approved && r.entryId == Some(e.id)
       && e.fund == r.fund && e.kind == r.direction && e.amount == Signed(r)
  }

  ghost predicate Posted(db: Db, r: nat) {
    exists k | 0 <= k < |db.ledger| :: db.ledger[k].key == r
  }

  // Exactly one ledger row per approved request, none for any other.
  ghost predicate LedgerOk(db: Db) {
    && (forall k | 0 <= k < |db.ledger| :: EntryOk(db, db.ledger[k]))
    && (forall j, k | 0 <= j < k < |db.ledger| ::
          db.ledger[j].key != db.ledger[k].key && db.ledger[j].id != db.ledger[k].id)
    && (forall r | r in db.requests && db.requests[r].status == Approved :: Posted(db, r))
  }

  // Ids of rows not yet committed are still unused.
  ghost predicate IdsOk(s: State) {
    forall k | 0 <= k < |s.db.ledger| ::
      var id := s.db.ledger[k].id;
      id < s.idBase || (id - s.idBase < |s.txs| && s.txs[id - s.idBase].pc.Done?)
  }

  // Each fund's capital is what it started with plus its ledger rows, and funding
  // alone never takes it below the slack.
  ghost predicate CapitalOk(db: Db, start: map<nat, real>) {
    && db.capital.Keys == start.Keys
    && (forall f | f in start :: db.capital[f] == start[f] + SumFor(db.ledger, f))
    && (forall f | f in start && start[f] >= -SLACK :: db.capital[f] >= -SLACK)
  }

  // No request is decided twice.
  ghost predicate OneWinner(s: State) {
    forall i, j | 0 <= i < j < |s.txs| && s.txs[i].pc == Done(Committed) && s.txs[j].pc == Done(Committed) ::
      s.txs[i].req != s.txs[j].req
  }

  predicate TxOk(s: State, i: nat)
    requires i < |s.txs|
  {
    Buffered(s, i) && Reading(s, i)
  }

  ghost predicate TxsOk(s: State) {
    forall i | 0 <= i < |s.txs| :: TxOk(s, i)
  }

  ghost predicate Inv(s: State, start: map<nat, real>) {
    Locked(s) && TxsOk(s) && RequestsOk(s.db) && LedgerOk(s.db) && IdsOk(s) && CapitalOk(s.db, start) && OneWinner(s)
  }

  // Any books in order, any handlers about to start, no locks.
  ghost predicate Initial(s: State, start: map<nat, real>) {
    && RequestsOk(s.db) && LedgerOk(s.db) && CapitalOk(s.db, start) && IdsOk(s)
    && s.reqLock == map[] && s.fundLock == map[]
    && forall i | 0 <= i < |s.txs| ::
         && (s.txs[i].pc.Lookup? || s.txs[i].pc.Read?)
         && s.txs[i].entry == None && s.txs[i].delta == 0.0 && s.txs[i].mark == None
  }

  lemma InitialInv(s: State, start: map<nat, real>)
    requires Initial(s, start)
    ensures Inv(s, start)
  {
  }

  // --- Steps that leave the database alone ------------------------------------

  // A transaction is unaffected by another's move on the same database.
  lemma OtherSame(s: State, u: State, j: nat)
    requires j < |s.txs| == |u.txs| && u.txs[j] == s.txs[j] && u.db == s.db && u.idBase == s.idBase && TxOk(s, j)
    ensures TxOk(u, j)
  {
  }

  // Which transactions have ended, and how, is all that ids and winners depend on.
  lemma IdsMove(s: State, u: State)
    requires IdsOk(s) && u.db.ledger == s.db.ledger && u.idBase == s.idBase && |u.txs| == |s.txs|
    requires forall j | 0 <= j < |s.txs| && s.txs[j].pc.Done? :: u.txs[j].pc.Done?
    ensures IdsOk(u)
  {
  }

  lemma WinnersMove(s: State, u: State)
    requires OneWinner(s) && |u.txs| == |s.txs|
    requires forall j | 0 <= j < |s.txs| :: u.txs[j].req == s.txs[j].req
    requires forall j | 0 <= j < |s.txs| && u.txs[j].pc == Done(Committed) :: s.txs[j].pc == Done(Committed)
    ensures OneWinner(u)
  {
  }

  // Moving one transaction on, with the locks that go with it.
  lemma MoveInv(s: State, i: nat, t: Tx, reqLock: map<nat, nat>, fundLock: map<nat, nat>, start: map<nat, real>)
    requires Inv(s, start) && i < |s.txs| && !s.txs[i].pc.Done? && !t.pc.Done? && t.req == s.txs[i].req
    requires var u := Move(s, i, t).(reqLock := reqLock, fundLock := fundLock);
             Locked(u) && TxOk(u, i)
    ensures Inv(Move(s, i, t).(reqLock := reqLock, fundLock := fundLock), start)
  {
    hide Locked, TxOk, IdsOk, OneWinner, RequestsOk, LedgerOk, CapitalOk;
    var u := Move(s, i, t).(reqLock := reqLock, fundLock := fundLock);
    forall j | 0 <= j < |u.txs| ensures TxOk(u, j) {
      if j != i {
        OtherSame(s, u, j);
      }
    }
    IdsMove(s, u);
    WinnersMove(s, u);
  }

  lemma AbortInv(s: State, i: nat, outcome: Outcome, start: map<nat, real>)
    requires Inv(s, start) && i < |s.txs| && !s.txs[i].pc.Done? && outcome != Committed
    ensures Inv(Abort(s, i, outcome), start)
  {
    UnlockLocked(s, i, s.db, outcome);
    assert TxOk(Abort(s, i, outcome), i);
    hide Locked, TxOk, IdsOk, OneWinner, RequestsOk, LedgerOk, CapitalOk, Unlock;
    var u := Abort(s, i, outcome);
    forall j | 0 <= j < |u.txs| ensures TxOk(u, j) {
      if j != i {
        OtherSame(s, u, j);
      }
    }
    IdsMove(s, u);
    WinnersMove(s, u);
  }

  // Ending a transaction leaves every other lock where it was.
  lemma UnlockLocked(s: State, i: nat, db: Db, outcome: Outcome)
    requires Locked(s) && i < |s.txs|
    ensures Locked(End(s, i, db, outcome))
  {
  }

  // Taking a free lock on one's own request (fund).
  lemma LockReq(s: State, i: nat, t: Tx, start: map<nat, real>)
    requires Inv(s, start) && i < |s.txs| && t.req == s.txs[i].req && Free(s.reqLock, t.req, i)
    requires HoldsReq(t.pc) && !HoldsFund(s.txs[i]) && !HoldsFund(t) && !HoldsReq(s.txs[i].pc)
    ensures Locked(Move(s, i, t).(reqLock := s.reqLock[t.req := i]))
  {
    hide TxsOk, RequestsOk, LedgerOk, IdsOk, CapitalOk, OneWinner;
  }

  lemma LockFundRow(s: State, i: nat, t: Tx, start: map<nat, real>)
    requires Inv(s, start) && i < |s.txs| && t.req == s.txs[i].req && t.row == s.txs[i].row
    requires Free(s.fundLock, t.row.fund, i)
    requires HoldsReq(t.pc) && HoldsReq(s.txs[i].pc) && HoldsFund(t)
    ensures Locked(Move(s, i, t).(fundLock := s.fundLock[t.row.fund := i]))
  {
    hide TxsOk, RequestsOk, LedgerOk, IdsOk, CapitalOk, OneWinner;
  }

  lemma KeepLocks(s: State, i: nat, t: Tx, start: map<nat, real>)
    requires Inv(s, start) && i < |s.txs| && t.req == s.txs[i].req
    requires HoldsReq(t.pc) == HoldsReq(s.txs[i].pc) && HoldsFund(t) == HoldsFund(s.txs[i])
    requires HoldsFund(t) ==> t.row == s.txs[i].row
    ensures Locked(Move(s, i, t))
  {
    hide TxsOk, RequestsOk, LedgerOk, IdsOk, CapitalOk, OneWinner;
  }

  // A request that is still pending has no ledger row, so the insert is never
  // swallowed by the idempotency key.
  lemma {:induction false} NoConflict(ledger: seq<Entry>, fund: nat, key: nat)
    requires forall k | 0 <= k < |ledger| :: ledger[k].key != key
    ensures Conflict(ledger, fund, key) == None
    decreases |ledger|
  {
    if ledger != [] {
      NoConflict(ledger[..|ledger| - 1], fund, key);
    }
  }

  lemma PendingNotPosted(db: Db, req: nat, fund: nat)
    requires LedgerOk(db) && req in db.requests && db.requests[req].status == Pending
    ensures Conflict(db.ledger, fund, req) == None
    ensures forall k | 0 <= k < |db.ledger| :: db.ledger[k].key != req
  {
    forall k | 0 <= k < |db.ledger| ensures db.ledger[k].key != req {
      assert EntryOk(db, db.ledger[k]);
    }
    NoConflict(db.ledger, fund, req);
  }

  lemma Own(s: State, i: nat, start: map<nat, real>)
    requires Inv(s, start) && i < |s.txs|
    ensures TxOk(s, i) && LedgerOk(s.db)
  {
  }

  lemma LookupInv(s: State, i: nat, start: map<nat, real>)
    requires Inv(s, start) && i < |s.txs| && s.txs[i].pc.Lookup? && Free(s.reqLock, s.txs[i].req, i)
    ensures Inv(DoLookup(s, i), start)
  {
    var t := s.txs[i];
    hide Inv, Locked, LedgerOk;
    Own(s, i, start);
    if t.req !in s.db.requests {
      AbortInv(s, i, NotFound, start);
    } else {
      var row := s.db.requests[t.req];
      if row.status != Pending {
        AbortInv(s, i, NotPending, start);
      } else if row.requestedBy == t.actor {
        AbortInv(s, i, FourEyeViolation, start);
      } else {
        LookupMove(s, i);
        hide TxOk, DoLookup;
        var t' := DoLookup(s, i).txs[i];
        LockReq(s, i, t', start);
        MoveInv(s, i, t', s.reqLock[t.req := i], s.fundLock, start);
      }
    }
  }

  lemma LookupMove(s: State, i: nat)
    requires i < |s.txs| && s.txs[i].pc.Lookup? && TxOk(s, i)
    requires var t := s.txs[i];
             && t.req in s.db.requests && s.db.requests[t.req].status == Pending
             && s.db.requests[t.req].requestedBy != t.actor
    ensures var u := DoLookup(s, i);
            && u == Move(s, i, u.txs[i]).(reqLock := s.reqLock[s.txs[i].req := i]) && TxOk(u, i)
            && u.txs[i].req == s.txs[i].req && HoldsReq(u.txs[i].pc) && !HoldsFund(u.txs[i])
  {
  }

  // What a transaction looks like once it has moved on with its row and locks.
  predicate Moved(s: State, u: State, i: nat, pc: Pc) {
    && i < |s.txs| == |u.txs| && u.txs[i].pc == pc && u.txs[i].req == s.txs[i].req && TxOk(u, i)
  }

  lemma LockFundMove(s: State, i: nat)
    requires i < |s.txs| && s.txs[i].pc.LockFund? && TxOk(s, i)
    requires var t := s.txs[i]; t.row.fund in s.db.capital && s.db.capital[t.row.fund] >= t.row.amount - SLACK
    ensures var u := DoLockFund(s, i);
            && Moved(s, u, i, Append) && u == Move(s, i, u.txs[i]).(fundLock := s.fundLock[s.txs[i].row.fund := i])
            && u.txs[i].row == s.txs[i].row && HoldsFund(u.txs[i])
  {
  }

  lemma LockFundInv(s: State, i: nat, start: map<nat, real>)
    requires Inv(s, start) && i < |s.txs| && s.txs[i].pc.LockFund? && Free(s.fundLock, s.txs[i].row.fund, i)
    ensures Inv(DoLockFund(s, i), start)
  {
    var t := s.txs[i];
    hide Inv, Locked, LedgerOk, TxOk, Abort;
    Own(s, i, start);
    if t.row.fund !in s.db.capital {
      AbortInv(s, i, Failed, start);
    } else if s.db.capital[t.row.fund] < t.row.amount - SLACK {
      AbortInv(s, i, InsufficientCash, start);
    } else {
      LockFundMove(s, i);
      hide DoLockFund;
      var t' := DoLockFund(s, i).txs[i];
      LockFundRow(s, i, t', start);
      MoveInv(s, i, t', s.reqLock, s.fundLock[t.row.fund := i], start);
    }
  }

  lemma AppendMove(s: State, i: nat)
    requires i < |s.txs| && s.txs[i].pc.Append? && TxOk(s, i)
    requires Conflict(s.db.ledger, s.txs[i].row.fund, s.txs[i].req) == None
    ensures var u := DoAppend(s, i);
            && u == Move(s, i, u.txs[i]) && TxOk(u, i)
            && u.txs[i].pc.UpdateFund? && u.txs[i].req == s.txs[i].req && u.txs[i].row == s.txs[i].row
  {
    hide Conflict;
  }

  lemma AppendInv(s: State, i: nat, start: map<nat, real>)
    requires Inv(s, start) && i < |s.txs| && s.txs[i].pc.Append?
    ensures Inv(DoAppend(s, i), start)
  {
    assert HoldsReq(s.txs[i].pc);
    hide Inv, Locked, Conflict, LedgerOk, TxOk, DoAppend;
    Own(s, i, start);
    var t := s.txs[i];
    PendingNotPosted(s.db, t.req, t.row.fund) by {
      OwnRow(s, i);
    }
    AppendMove(s, i);
    var t' := DoAppend(s, i).txs[i];
    KeepLocks(s, i, t', start);
    MoveInv(s, i, t', s.reqLock, s.fundLock, start);
  }

  lemma OwnRow(s: State, i: nat)
    requires i < |s.txs| && TxOk(s, i) && HoldsReq(s.txs[i].pc)
    ensures var t := s.txs[i]; t.req in s.db.requests && s.db.requests[t.req] == t.row && t.row.status == Pending
  {
  }

  lemma UpdateFundMove(s: State, i: nat)
    requires i < |s.txs| && s.txs[i].pc.UpdateFund? && TxOk(s, i)
    ensures var u := DoUpdateFund(s, i);
            && Moved(s, u, i, MarkApproved)
            && u == Move(s, i, u.txs[i]).(fundLock := s.fundLock[s.txs[i].row.fund := i])
            && u.txs[i].row == s.txs[i].row && HoldsFund(u.txs[i])
  {
  }

  lemma UpdateFundInv(s: State, i: nat, start: map<nat, real>)
    requires Inv(s, start) && i < |s.txs| && s.txs[i].pc.UpdateFund? && Free(s.fundLock, s.txs[i].row.fund, i)
    ensures Inv(DoUpdateFund(s, i), start)
  {
    hide Inv, Locked, LedgerOk, TxOk, DoUpdateFund;
    Own(s, i, start);
    UpdateFundMove(s, i);
    var t' := DoUpdateFund(s, i).txs[i];
    LockFundRow(s, i, t', start);
    MoveInv(s, i, t', s.reqLock, s.fundLock[t'.row.fund := i], start);
  }

  lemma MarkApprovedMove(s: State, i: nat)
    requires i < |s.txs| && s.txs[i].pc.MarkApproved? && TxOk(s, i)
    ensures var u := DoMarkApproved(s, i);
            Moved(s, u, i, CommitApproval) && u == Move(s, i, u.txs[i]) && u.txs[i].row == s.txs[i].row
  {
  }

  lemma MarkApprovedInv(s: State, i: nat, start: map<nat, real>)
    requires Inv(s, start) && i < |s.txs| && s.txs[i].pc.MarkApproved?
    ensures Inv(DoMarkApproved(s, i), start)
  {
    hide Inv, Locked, LedgerOk, TxOk, DoMarkApproved;
    Own(s, i, start);
    MarkApprovedMove(s, i);
    var t' := DoMarkApproved(s, i).txs[i];
    KeepLocks(s, i, t', start);
    MoveInv(s, i, t', s.reqLock, s.fundLock, start);
  }

  lemma ReadMove(s: State, i: nat)
    requires i < |s.txs| && s.txs[i].pc.Read? && TxOk(s, i)
    requires var t := s.txs[i];
             && t.req in s.db.requests && s.db.requests[t.req].status == Pending
             && s.db.requests[t.req].requestedBy != t.actor
    ensures var u := DoRead(s, i); Moved(s, u, i, MarkRejected) && u == Move(s, i, u.txs[i])
  {
  }

  lemma ReadInv(s: State, i: nat, start: map<nat, real>)
    requires Inv(s, start) && i < |s.txs| && s.txs[i].pc.Read?
    ensures Inv(DoRead(s, i), start)
  {
    var t := s.txs[i];
    hide Inv, Locked, LedgerOk, TxOk, Abort;
    Own(s, i, start);
    if t.req !in s.db.requests {
      AbortInv(s, i, NotFound, start);
    } else {
      var row := s.db.requests[t.req];
      if row.status != Pending {
        AbortInv(s, i, NotPending, start);
      } else if row.requestedBy == t.actor {
        AbortInv(s, i, FourEyeViolation, start);
      } else {
        ReadMove(s, i);
        hide DoRead;
        var t' := DoRead(s, i).txs[i];
        KeepLocks(s, i, t', start);
        MoveInv(s, i, t', s.reqLock, s.fundLock, start);
      }
    }
  }

  lemma MarkRejectedMove(s: State, i: nat)
    requires i < |s.txs| && s.txs[i].pc.MarkRejected? && TxOk(s, i)
    requires s.txs[i].req in s.db.requests && s.db.requests[s.txs[i].req].status == Pending
    ensures var u := DoMarkRejected(s, i);
            && Moved(s, u, i, CommitRejection)
            && u == Move(s, i, u.txs[i]).(reqLock := s.reqLock[s.txs[i].req := i])
  {
  }

  lemma MarkRejectedInv(s: State, i: nat, start: map<nat, real>)
    requires Inv(s, start) && i < |s.txs| && s.txs[i].pc.MarkRejected? && Free(s.reqLock, s.txs[i].req, i)
    ensures Inv(DoMarkRejected(s, i), start)
  {
    var t := s.txs[i];
    Own(s, i, start);
    hide Inv, Locked, LedgerOk, Abort;
    if s.db.requests[t.req].status != Pending {
      AbortInv(s, i, StateConflict, start);
    } else {
      MarkRejectedMove(s, i);
      hide TxOk, DoMarkRejected;
      var t' := DoMarkRejected(s, i).txs[i];
      LockReq(s, i, t', start);
      MoveInv(s, i, t', s.reqLock[t.req := i], s.fundLock, start);
    }
  }

  // --- Steps that write the database ------------------------------------------

  // Changing one pending request's record, without approving it, keeps the books.
  lemma RecordInv(db: Db, req: nat, r: Request)
    requires RequestsOk(db) && LedgerOk(db)
    requires RecordOk(r) && r.fund in db.capital && r.status != Approved
    requires req in db.requests ==> db.requests[req].status == Pending
    ensures var after := db.(requests := db.requests[req := r]); RequestsOk(after) && LedgerOk(after)
  {
  }

  // ... and every transaction that is not working on that request.
  lemma OthersKeep(s: State, u: State, req: nat, r: Request, j: nat)
    requires j < |s.txs| && TxOk(s, j) && (HoldsReq(s.txs[j].pc) ==> s.txs[j].req != req)
    requires req in s.db.requests ==> var o := s.db.requests[req]; o.status == Pending && o.requestedBy == r.requestedBy
    requires u.db == s.db.(requests := s.db.requests[req := r]) && u.idBase == s.idBase
    requires |u.txs| == |s.txs| && u.txs[j] == s.txs[j]
    ensures TxOk(u, j)
  {
  }

  lemma CapitalSame(db: Db, after: Db, start: map<nat, real>)
    requires CapitalOk(db, start) && after.capital == db.capital && after.ledger == db.ledger
    ensures CapitalOk(after, start)
  {
  }

  // A user's cancel or a new request.
  lemma EnvironmentInv(s: State, req: nat, r: Request, start: map<nat, real>)
    requires Inv(s, start) && RecordOk(r) && r.fund in s.db.capital && r.status != Approved && req !in s.reqLock
    requires req in s.db.requests ==>
               var o := s.db.requests[req]; o.status == Pending && o.requestedBy == r.requestedBy
    ensures Inv(s.(db := s.db.(requests := s.db.requests[req := r])), start)
  {
    var u := s.(db := s.db.(requests := s.db.requests[req := r]));
    assert Locked(u);
    hide TxOk, IdsOk, OneWinner, RequestsOk, LedgerOk, CapitalOk, RecordOk;
    RecordInv(s.db, req, r);
    CapitalSame(s.db, u.db, start);
    IdsMove(s, u);
    WinnersMove(s, u);
    forall j | 0 <= j < |u.txs| ensures TxOk(u, j) {
      OthersKeep(s, u, req, r, j);
    }
  }

  // A request in some transaction's hands has not been decided by another.
  lemma WinnersEnd(s: State, i: nat, db: Db)
    requires TxsOk(s) && OneWinner(s) && i < |s.txs| && HoldsReq(s.txs[i].pc)
    ensures OneWinner(End(s, i, db, Committed))
  {
    assert TxOk(s, i);
    forall j | 0 <= j < |s.txs| && s.txs[j].pc == Done(Committed) ensures s.txs[j].req != s.txs[i].req {
      assert TxOk(s, j);
    }
    hide TxOk, Unlock;
  }

  // No two transactions hold the same request, or the same fund.
  lemma LockedElsewhere(s: State, i: nat)
    requires Locked(s) && i < |s.txs|
    ensures forall j | 0 <= j < |s.txs| && j != i && HoldsReq(s.txs[i].pc) && HoldsReq(s.txs[j].pc) ::
              s.txs[j].req != s.txs[i].req
    ensures forall j | 0 <= j < |s.txs| && j != i && HoldsFund(s.txs[i]) && HoldsFund(s.txs[j]) ::
              s.txs[j].row.fund != s.txs[i].row.fund
  {
  }

  // A rejection about to commit.
  lemma RejectionFacts(s: State, i: nat)
    requires i < |s.txs| && TxOk(s, i) && RequestsOk(s.db) && s.txs[i].pc.CommitRejection?
    ensures var t := s.txs[i];
            var r := Reject(t.row, t.actor);
            && RecordOk(r) && r.fund in s.db.capital && r.status != Approved && r.requestedBy == t.row.requestedBy
            && t.req in s.db.requests && s.db.requests[t.req] == t.row && t.row.status == Pending
            && Commit(s.db, t) == s.db.(requests := s.db.requests[t.req := r])
            && TxOk(End(s, i, Commit(s.db, t), Committed), i)
  {
  }

  lemma RejectionInv(s: State, i: nat, start: map<nat, real>)
    requires Inv(s, start) && i < |s.txs| && s.txs[i].pc.CommitRejection?
    ensures Inv(End(s, i, Commit(s.db, s.txs[i]), Committed), start)
  {
    hide RequestsOk, LedgerOk, IdsOk, CapitalOk, TxOk, RecordOk, OneWinner, Locked, Commit, Reject, Unlock;
    var t := s.txs[i];
    var r := Reject(t.row, t.actor);
    RejectionFacts(s, i);
    var u := End(s, i, Commit(s.db, t), Committed);
    CapitalSame(s.db, u.db, start);
    LockedElsewhere(s, i);
    RecordInv(s.db, t.req, r);
    IdsMove(s, u);
    WinnersEnd(s, i, u.db);
    UnlockLocked(s, i, u.db, Committed);
    forall j | 0 <= j < |u.txs| ensures TxOk(u, j) {
      if j != i {
        OthersKeep(s, u, t.req, r, j);
      }
    }
  }

  // The books once a pending request is approved with a row of its own.
  lemma ApprovedBooks(db: Db, req: nat, actor: nat, id: nat, capital: map<nat, real>)
    requires RequestsOk(db) && LedgerOk(db) && capital.Keys == db.capital.Keys
    requires req in db.requests && db.requests[req].status == Pending && db.requests[req].requestedBy != actor
    requires forall k | 0 <= k < |db.ledger| :: db.ledger[k].id != id
    ensures var row := db.requests[req];
            var e := Entry(id, row.fund, row.direction, Signed(row), req);
            var after := Db(db.requests[req := Approve(row, actor, id)], capital, db.ledger + [e]);
            RequestsOk(after) && LedgerOk(after)
  {
    var row := db.requests[req];
    var e := Entry(id, row.fund, row.direction, Signed(row), req);
    assert RecordOk(row);
    var after := Db(db.requests[req := Approve(row, actor, id)], capital, db.ledger + [e]);
    forall k | 0 <= k < |after.ledger|
      ensures EntryOk(after, after.ledger[k]) && (k < |db.ledger| ==> after.ledger[k].key != req)
    {
      if k < |db.ledger| {
        assert EntryOk(db, db.ledger[k]);
      }
    }
    forall q | q in after.requests && after.requests[q].status == Approved ensures Posted(after, q) {
      if q == req {
        assert after.ledger[|db.ledger|].key == q;
      } else {
        assert Posted(db, q);
        var k :| 0 <= k < |db.ledger| && db.ledger[k].key == q;
        assert after.ledger[k].key == q;
      }
    }
  }

  lemma CapitalMoves(db: Db, after: Db, e: Entry, start: map<nat, real>)
    requires CapitalOk(db, start) && e.fund in db.capital
    requires e.amount >= 0.0 || db.capital[e.fund] + e.amount >= -SLACK
    requires after.ledger == db.ledger + [e] && after.capital == db.capital[e.fund := db.capital[e.fund] + e.amount]
    ensures CapitalOk(after, start)
  {
  }

  // An approval about to commit.
  lemma ApprovalFacts(s: State, i: nat)
    requires i < |s.txs| && TxOk(s, i) && RequestsOk(s.db) && s.txs[i].pc.CommitApproval?
    ensures var t := s.txs[i];
            var e := EntryFor(t, s.idBase + i);
            && t.req in s.db.requests && s.db.requests[t.req] == t.row
            && t.row.status == Pending && t.row.requestedBy != t.actor && t.row.fund in s.db.capital
            && (e.amount >= 0.0 || s.db.capital[t.row.fund] + e.amount >= -SLACK)
            && Commit(s.db, t) == Db(s.db.requests[t.req := Approve(t.row, t.actor, s.idBase + i)],
                                     s.db.capital[t.row.fund := s.db.capital[t.row.fund] + e.amount], s.db.ledger + [e])
            && TxOk(End(s, i, Commit(s.db, t), Committed), i)
  {
  }

  // An approval's commit touches no other transaction: nobody else holds its
  // request or its fund.
  lemma ApprovalOthers(s: State, u: State, t: Tx, r: Request, e: Entry, j: nat)
    requires j < |s.txs| == |u.txs| && TxOk(s, j) && u.txs[j] == s.txs[j] && u.idBase == s.idBase
    requires t.req in s.db.requests && s.db.requests[t.req].status == Pending
    requires r.requestedBy == s.db.requests[t.req].requestedBy
    requires HoldsReq(s.txs[j].pc) ==> s.txs[j].req != t.req
    requires HoldsFund(s.txs[j]) ==> s.txs[j].row.fund != e.fund
    requires e.fund in s.db.capital
    requires u.db == Db(s.db.requests[t.req := r], s.db.capital[e.fund := s.db.capital[e.fund] + e.amount],
                        s.db.ledger + [e])
    ensures TxOk(u, j)
  {
  }

  lemma IdsCommit(s: State, i: nat, u: State, e: Entry)
    requires IdsOk(s) && i < |s.txs| && !s.txs[i].pc.Done? && e.id == s.idBase + i
    requires u.db.ledger == s.db.ledger + [e] && u.idBase == s.idBase && |u.txs| == |s.txs|
    requires forall j | 0 <= j < |s.txs| && (j == i || s.txs[j].pc.Done?) :: u.txs[j].pc.Done?
    ensures IdsOk(u)
    ensures forall k | 0 <= k < |s.db.ledger| :: s.db.ledger[k].id != e.id
  {
  }

  lemma ApprovalInv(s: State, i: nat, start: map<nat, real>)
    requires Inv(s, start) && i < |s.txs| && s.txs[i].pc.CommitApproval?
    ensures Inv(End(s, i, Commit(s.db, s.txs[i]), Committed), start)
  {
    hide RequestsOk, LedgerOk, IdsOk, CapitalOk, TxOk, RecordOk, OneWinner, Locked, Commit, Approve, Unlock;
    var t := s.txs[i];
    var e := EntryFor(t, s.idBase + i);
    ApprovalFacts(s, i);
    var u := End(s, i, Commit(s.db, t), Committed);
    IdsCommit(s, i, u, e);
    ApprovedBooks(s.db, t.req, t.actor, s.idBase + i, u.db.capital);
    CapitalMoves(s.db, u.db, e, start);
    LockedElsewhere(s, i);
    WinnersEnd(s, i, u.db);
    UnlockLocked(s, i, u.db, Committed);
    ApprovalCovers(s, i, u, e);
  }

  lemma ApprovalCovers(s: State, i: nat, u: State, e: Entry)
    requires TxsOk(s) && Locked(s) && i < |s.txs| && s.txs[i].pc.CommitApproval?
    requires var t := s.txs[i];
             && t.req in s.db.requests && s.db.requests[t.req] == t.row && t.row.status == Pending
             && e == EntryFor(t, s.idBase + i) && e.fund in s.db.capital
             && u == End(s, i, Db(s.db.requests[t.req := Approve(t.row, t.actor, s.idBase + i)],
                                  s.db.capital[e.fund := s.db.capital[e.fund] + e.amount],
                                  s.db.ledger + [e]), Committed)
             && TxOk(u, i)
    ensures TxsOk(u)
  {
    hide TxOk, Unlock;
    LockedElsewhere(s, i);
    forall j | 0 <= j < |u.txs| ensures TxOk(u, j) {
      if j != i {
        ApprovalOthers(s, u, s.txs[i], Approve(s.txs[i].row, s.txs[i].actor, s.idBase + i), e, j);
      }
    }
  }

  // --- Every schedule ---------------------------------------------------------

  lemma AdvanceInv(s: State, i: nat, start: map<nat, real>)
    requires Inv(s, start) && Enabled(s, Advance(i))
    ensures Inv(Next(s, Advance(i)), start)
  {
    hide Inv, DoLookup, DoLockFund, DoAppend, DoUpdateFund, DoMarkApproved, DoRead, DoMarkRejected, End, Commit;
    match s.txs[i].pc
    case Lookup => LookupInv(s, i, start);
    case LockFund => LockFundInv(s, i, start);
    case Append => AppendInv(s, i, start);
    case UpdateFund => UpdateFundInv(s, i, start);
    case MarkApproved => MarkApprovedInv(s, i, start);
    case CommitApproval => ApprovalInv(s, i, start);
    case Read => ReadInv(s, i, start);
    case MarkRejected => MarkRejectedInv(s, i, start);
    case CommitRejection => RejectionInv(s, i, start);
    case Done(_) =>
  }

  lemma StepInv(s: State, l: Label, start: map<nat, real>)
    requires Inv(s, start) && Enabled(s, l)
    ensures Inv(Next(s, l), start)
  {
    match l
    case Advance(i) => AdvanceInv(s, i, start);
    case Fail(i) => AbortInv(s, i, Failed, start);
    case Cancel(req, user) =>
      assert RecordOk(s.db.requests[req]);
      EnvironmentInv(s, req, s.db.requests[req].(status := Cancelled), start);
    case Create(id, request) =>
      LockedAreKnown(s, start);
      EnvironmentInv(s, id, request, start);
  }

  lemma LockedAreKnown(s: State, start: map<nat, real>)
    requires Inv(s, start)
    ensures forall r | r in s.reqLock :: r in s.db.requests
  {
    forall r | r in s.reqLock ensures r in s.db.requests {
      assert TxOk(s, s.reqLock[r]);
    }
  }

  // The invariant holds after any schedule of any handlers.
  lemma {:induction false} Safe(s: State, ls: seq<Label>, start: map<nat, real>)
    requires Initial(s, start)
    ensures Inv(Exec(s, ls), start)
    decreases |ls|
  {
    if ls == [] {
      InitialInv(s, start);
    } else {
      hide Inv, Initial, Next, Enabled;
      Safe(s, ls[..|ls| - 1], start);
      var t := Exec(s, ls[..|ls| - 1]);
      if Enabled(t, ls[|ls| - 1]) {
        StepInv(t, ls[|ls| - 1], start);
      }
    }
  }

  // Cash identity: capital is the start plus the signed amounts of the fund's
  // ledger rows, each approved request has exactly one row of its own amount and
  // sign, no other request has any, and capital stays above -0.0001.
  lemma CashIdentity(s: State, ls: seq<Label>, start: map<nat, real>, fund: nat, req: nat)
    requires Initial(s, start) && fund in start
    ensures var db := Exec(s, ls).db;
            && fund in db.capital && db.capital[fund] == start[fund] + SumFor(db.ledger, fund)
            && (start[fund] >= 0.0 ==> db.capital[fund] >= -SLACK)
            && (Posted(db, req) <==> req in db.requests && db.requests[req].status == Approved)
            && (forall j, k | 0 <= j < |db.ledger| && 0 <= k < |db.ledger| ::
                  db.ledger[j].key == db.ledger[k].key == req ==> j == k)
            && (forall k | 0 <= k < |db.ledger| && db.ledger[k].key == req ::
                  var r := db.requests[req];
                  && r.entryId == Some(db.ledger[k].id) && db.ledger[k].fund == r.fund
                  && db.ledger[k].amount == (if r.direction == Deposit then r.amount else -r.amount))
  {
    Safe(s, ls, start);
    var db := Exec(s, ls).db;
    forall k | 0 <= k < |db.ledger| && db.ledger[k].key == req ensures EntryOk(db, db.ledger[k]) {
    }
  }

  // The withdrawal guard lets through exactly the withdrawals that leave the fund
  // at or above -0.0001.
  lemma WithdrawalGuard(s: State, i: nat)
    requires i < |s.txs| && s.txs[i].pc.LockFund? && s.txs[i].row.direction == Withdrawal
    requires s.txs[i].row.fund in s.db.capital
    ensures DoLockFund(s, i).txs[i].pc.Append? <==> s.db.capital[s.txs[i].row.fund] + Signed(s.txs[i].row) >= -SLACK
  {
  }
}
