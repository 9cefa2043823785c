// Finality and progress of the funding workflow: a decided request never changes
// again, only another user's commit decides it, and no schedule can deadlock.
module FundingProgress {
  import opened Options
  import opened Funding
  import opened FundingSafety

  // --- Finality ----------------------------------------------------------------

  // What a request asks for never changes, and nothing does once it is decided.
  predicate Kept(before: Request, after: Request) {
    && after.fund == before.fund && after.direction == before.direction
    && after.amount == before.amount && after.requestedBy == before.requestedBy
    && (before.status != Pending ==> after == before)
  }

  // A step that commits request `req`.
  predicate Commits(s: State, l: Label, req: nat) {
    && l.Advance? && l.tx < |s.txs| && s.txs[l.tx].req == req
    && (s.txs[l.tx].pc.CommitApproval? || s.txs[l.tx].pc.CommitRejection?)
  }

  // Only a commit by somebody other than the requester, or the requester's own
  // cancel, takes a request out of pending.
  predicate Decides(s: State, l: Label, before: Request, after: Request, req: nat) {
    match after.status
    case Pending => after == before
    case Approved =>
      Commits(s, l, req) && after.approvedBy == Some(s.txs[l.tx].actor) && s.txs[l.tx].actor != before.requestedBy
    case Rejected =>
      Commits(s, l, req) && after.rejectedBy == Some(s.txs[l.tx].actor) && s.txs[l.tx].actor != before.requestedBy
    case Cancelled => l == Cancel(req, before.requestedBy)
  }

  lemma StepKeeps(s: State, l: Label, req: nat)
    requires TxsOk(s) && Enabled(s, l) && req in s.db.requests
    ensures req in Next(s, l).db.requests
    ensures var before, after := s.db.requests[req], Next(s, l).db.requests[req];
            Kept(before, after) && (before.status == Pending ==> Decides(s, l, before, after, req))
  {
    if l.Advance? {
      assert TxOk(s, l.tx);
    }
    hide Unlock, Conflict, TxOk, Reading, Buffered;
    if l.Advance? && s.txs[l.tx].pc.CommitApproval? {
      CommitKeeps(s, l.tx, req);
    } else if l.Advance? && s.txs[l.tx].pc.CommitRejection? {
      CommitKeeps(s, l.tx, req);
    }
  }

  lemma CommitKeeps(s: State, i: nat, req: nat)
    requires i < |s.txs| && TxOk(s, i) && req in s.db.requests
    requires s.txs[i].pc.CommitApproval? || s.txs[i].pc.CommitRejection?
    ensures req in Commit(s.db, s.txs[i]).requests
    ensures var before, after := s.db.requests[req], Commit(s.db, s.txs[i]).requests[req];
            Kept(before, after) && (before.status == Pending ==> Decides(s, Advance(i), before, after, req))
  {
  }

  // Over every schedule and every continuation of it, what a request asks for
  // stays, and its decision, once there, stays with its author's name and its
  // ledger row.
  lemma {:induction false} Final(s: State, ls: seq<Label>, more: seq<Label>, start: map<nat, real>, req: nat)
    requires Initial(s, start) && req in Exec(s, ls).db.requests
    ensures req in Exec(s, ls + more).db.requests
    ensures Kept(Exec(s, ls).db.requests[req], Exec(s, ls + more).db.requests[req])
    decreases |more|
  {
    if more == [] {
      assert ls + more == ls;
    } else {
      var n := |more| - 1;
      hide Initial, Next, Enabled, Inv;
      Final(s, ls, more[..n], start, req);
      assert (ls + more)[..|ls + more| - 1] == ls + more[..n];
      var t := Exec(s, ls + more[..n]);
      if Enabled(t, more[n]) {
        InvTxs(s, ls + more[..n], start);
        StepKeeps(t, more[n], req);
      }
    }
  }

  lemma InvTxs(s: State, ls: seq<Label>, start: map<nat, real>)
    requires Initial(s, start)
    ensures TxsOk(Exec(s, ls)) && Locked(Exec(s, ls)) && RequestsOk(Exec(s, ls).db) && OneWinner(Exec(s, ls))
  {
    Safe(s, ls, start);
  }

  // A handler that reported success decided its request, in its own admin's name
  // and not the requester's, and it is the only handler that did.
  lemma SoleDecision(s: State, ls: seq<Label>, start: map<nat, real>, i: nat)
    requires Initial(s, start) && i < |Exec(s, ls).txs| && Exec(s, ls).txs[i].pc == Done(Committed)
    ensures var u := Exec(s, ls);
            var t := u.txs[i];
            && Decided(u.db, t) && u.db.requests[t.req].requestedBy != t.actor
            && !(u.db.requests[t.req].approvedBy.Some? && u.db.requests[t.req].rejectedBy.Some?)
            && (forall j | 0 <= j < |u.txs| && j != i && u.txs[j].req == t.req :: u.txs[j].pc != Done(Committed))
  {
    InvTxs(s, ls, start);
    var u := Exec(s, ls);
    assert TxOk(u, i);
    assert RecordOk(u.db.requests[u.txs[i].req]);
  }

  // A cancel is the requester's own, of a pending request, and cancels it; a new request
  // is kept as it was made.  Neither touches money, the ledger or any other request.
  lemma UsersMove(s: State, l: Label)
    requires Enabled(s, l) && (l.Cancel? || l.Create?)
    ensures var t := Next(s, l);
            && t.db.capital == s.db.capital && t.db.ledger == s.db.ledger && t.txs == s.txs
            && (l.Cancel? ==>
                  && l.req in s.db.requests && s.db.requests[l.req].status == Pending
                  && s.db.requests[l.req].requestedBy == l.user
                  && t.db.requests == s.db.requests[l.req := s.db.requests[l.req].(status := Cancelled)])
            && (l.Create? ==>
                  && l.id !in s.db.requests && l.request.status == Pending && l.request.amount > 0.0
                  && t.db.requests == s.db.requests[l.id := l.request])
  {
  }

  // A handler is told of a state conflict exactly when it rejects and the request was
  // decided after it read it; an approval holds the row's lock from its read on, so it
  // never is.
  lemma ConflictExactly(s: State, i: nat)
    requires TxsOk(s) && Enabled(s, Advance(i))
    ensures Next(s, Advance(i)).txs[i].pc == Done(StateConflict) <==>
              var t := s.txs[i];
              t.pc.MarkRejected? && t.req in s.db.requests && s.db.requests[t.req].status != Pending
  {
    assert TxOk(s, i);
    hide TxsOk, Conflict, Commit, Free, KeyFree, Unlock;
  }

  // --- Progress ----------------------------------------------------------------

  // Statements a handler has left.
  function Remaining(pc: Pc): nat {
    match pc
    case Lookup => 6
    case LockFund => 5
    case Append => 4
    case UpdateFund => 3
    case MarkApproved => 2
    case CommitApproval => 1
    case Read => 3
    case MarkRejected => 2
    case CommitRejection => 1
    case Done(_) => 0
  }

  function Work(txs: seq<Tx>): nat {
    if txs == [] then 0 else Work(txs[..|txs| - 1]) + Remaining(txs[|txs| - 1].pc)
  }

  lemma {:induction false} WorkPut(txs: seq<Tx>, i: nat, t: Tx)
    requires i < |txs|
    ensures Work(txs[i := t]) == Work(txs) - Remaining(txs[i].pc) + Remaining(t.pc)
    decreases |txs|
  {
    var n := |txs| - 1;
    if i == n {
      assert txs[i := t][..n] == txs[..n];
    } else {
      WorkPut(txs[..n], i, t);
      assert txs[i := t][..n] == txs[..n][i := t];
    }
  }

  lemma {:induction false} WorkDone(txs: seq<Tx>)
    ensures Work(txs) == 0 <==> forall i | 0 <= i < |txs| :: txs[i].pc.Done?
    decreases |txs|
  {
    if txs == [] {
    } else {
      var n := |txs| - 1;
      WorkDone(txs[..n]);
      if forall i | 0 <= i < n :: txs[..n][i].pc.Done? {
        assert forall i | 0 <= i < n :: txs[i] == txs[..n][i];
      } else {
        var i :| 0 <= i < n && !txs[..n][i].pc.Done?;
        assert !txs[i].pc.Done?;
      }
    }
  }

  // A handler holding a fund's row waits for nobody.
  lemma FundHolderRuns(s: State, v: nat)
    requires Locked(s) && TxsOk(s) && v < |s.txs| && HoldsFund(s.txs[v])
    ensures Enabled(s, Advance(v))
  {
    if s.txs[v].pc.Append? {
      KeyIsFree(s, v);
    }
  }

  // The key an approval inserts under is its own request's, whose row it holds.
  lemma KeyIsFree(s: State, v: nat)
    requires Locked(s) && TxsOk(s) && v < |s.txs| && s.txs[v].pc.Append?
    ensures KeyFree(s, v)
  {
    assert HoldsReq(s.txs[v].pc);
    LockedElsewhere(s, v);
    forall j | 0 <= j < |s.txs| && j != v && s.txs[j].entry.Some?
      ensures s.txs[j].entry.value.key != s.txs[v].req
    {
      assert TxOk(s, j);
    }
  }

  // One holding a request's row waits at most for the holder of its fund.
  lemma RequestHolderRuns(s: State, u: nat) returns (v: nat)
    requires Locked(s) && TxsOk(s) && u < |s.txs| && HoldsReq(s.txs[u].pc)
    ensures Enabled(s, Advance(v))
  {
    v := u;
    if s.txs[u].pc.Append? {
      KeyIsFree(s, u);
    } else if !Enabled(s, Advance(u)) {
      v := s.fundLock[s.txs[u].row.fund];
      FundHolderRuns(s, v);
    }
  }

  // Locks are taken request first, fund second, so while any handler is
  // unfinished some handler can take its next step.
  lemma NoDeadlock(s: State, ls: seq<Label>, start: map<nat, real>, i: nat) returns (v: nat)
    requires Initial(s, start) && i < |Exec(s, ls).txs| && !Exec(s, ls).txs[i].pc.Done?
    ensures Enabled(Exec(s, ls), Advance(v))
  {
    InvTxs(s, ls, start);
    var u := Exec(s, ls);
    if HoldsReq(u.txs[i].pc) {
      v := RequestHolderRuns(u, i);
    } else if Enabled(u, Advance(i)) {
      v := i;
    } else {
      v := RequestHolderRuns(u, u.reqLock[u.txs[i].req]);
    }
  }

  predicate ByHandler(l: Label) {
    l.Advance? || l.Fail?
  }

  // A step of handler i changes no other handler and leaves it fewer statements.
  predicate MovesOn(s: State, u: State, i: nat) {
    && i < |s.txs| == |u.txs| && u.txs == s.txs[i := u.txs[i]] && u.idBase == s.idBase
    && Remaining(u.txs[i].pc) < Remaining(s.txs[i].pc)
  }

  lemma ReadingMovesOn(s: State, i: nat)
    requires i < |s.txs| && (s.txs[i].pc.Lookup? || s.txs[i].pc.Read?)
    ensures s.txs[i].pc.Lookup? ==> MovesOn(s, DoLookup(s, i), i)
    ensures s.txs[i].pc.Read? ==> MovesOn(s, DoRead(s, i), i)
  {
    hide Unlock;
  }

  lemma LockingMovesOn(s: State, i: nat)
    requires i < |s.txs| && (s.txs[i].pc.LockFund? || s.txs[i].pc.UpdateFund?)
    ensures s.txs[i].pc.LockFund? ==> MovesOn(s, DoLockFund(s, i), i)
    ensures s.txs[i].pc.UpdateFund? ==> MovesOn(s, DoUpdateFund(s, i), i)
  {
    hide Unlock;
  }

  lemma AppendMovesOn(s: State, i: nat)
    requires i < |s.txs| && s.txs[i].pc.Append?
    ensures MovesOn(s, DoAppend(s, i), i)
  {
    hide Conflict;
  }

  lemma MarkingMovesOn(s: State, i: nat)
    requires i < |s.txs| && (s.txs[i].pc.MarkApproved? || s.txs[i].pc.MarkRejected?)
    ensures s.txs[i].pc.MarkApproved? ==> MovesOn(s, DoMarkApproved(s, i), i)
    ensures s.txs[i].pc.MarkRejected? ==> MovesOn(s, DoMarkRejected(s, i), i)
  {
    hide Unlock;
  }

  lemma EndMovesOn(s: State, i: nat, db: Db, outcome: Outcome)
    requires i < |s.txs| && !s.txs[i].pc.Done?
    ensures MovesOn(s, End(s, i, db, outcome), i)
  {
    hide Unlock;
  }

  lemma AdvanceMovesOn(s: State, i: nat)
    requires Enabled(s, Advance(i))
    ensures MovesOn(s, Next(s, Advance(i)), i)
  {
    hide MovesOn, DoLookup, DoRead, DoLockFund, DoUpdateFund, DoAppend;
    hide DoMarkApproved, DoMarkRejected, End, Commit, KeyFree;
    match s.txs[i].pc
    case Lookup => ReadingMovesOn(s, i);
    case Read => ReadingMovesOn(s, i);
    case LockFund => LockingMovesOn(s, i);
    case UpdateFund => LockingMovesOn(s, i);
    case Append => AppendMovesOn(s, i);
    case MarkApproved => MarkingMovesOn(s, i);
    case MarkRejected => MarkingMovesOn(s, i);
    case CommitApproval => EndMovesOn(s, i, Commit(s.db, s.txs[i]), Committed);
    case CommitRejection => EndMovesOn(s, i, Commit(s.db, s.txs[i]), Committed);
    case Done(_) =>
  }

  // Every handler step uses up work; the users' own steps add none.
  lemma StepWorks(s: State, l: Label)
    requires Enabled(s, l)
    ensures |Next(s, l).txs| == |s.txs| && Next(s, l).idBase == s.idBase
    ensures Work(Next(s, l).txs) + (if ByHandler(l) then 1 else 0) <= Work(s.txs)
  {
    match l
    case Advance(i) =>
      AdvanceMovesOn(s, i);
      hide Next, Enabled, Work, Remaining;
      WorkPut(s.txs, i, Next(s, l).txs[i]);
    case Fail(i) =>
      EndMovesOn(s, i, s.db, Failed);
      hide End, Work, Remaining;
      WorkPut(s.txs, i, End(s, i, s.db, Failed).txs[i]);
    case _ =>
  }

  // The handler steps a schedule really takes.
  function Taken(s: State, ls: seq<Label>): nat {
    if ls == [] then 0 else
      var n := |ls| - 1;
      Taken(s, ls[..n]) + if Enabled(Exec(s, ls[..n]), ls[n]) && ByHandler(ls[n]) then 1 else 0
  }

  // No schedule runs the handlers for more than six statements each, and one
  // that has taken that many has finished them all.
  lemma {:induction false} Bounded(s: State, ls: seq<Label>, start: map<nat, real>)
    requires Initial(s, start)
    ensures |Exec(s, ls).txs| == |s.txs| && Taken(s, ls) + Work(Exec(s, ls).txs) <= Work(s.txs) <= 6 * |s.txs|
    decreases |ls|
  {
    if ls == [] {
      WorkAtMost(s.txs);
    } else {
      var n := |ls| - 1;
      hide Initial, Next, Enabled, Inv, Work;
      Bounded(s, ls[..n], start);
      var t := Exec(s, ls[..n]);
      if Enabled(t, ls[n]) {
        InvTxs(s, ls[..n], start);
        StepWorks(t, ls[n]);
      }
    }
  }

  lemma {:induction false} WorkAtMost(txs: seq<Tx>)
    ensures Work(txs) <= 6 * |txs|
    decreases |txs|
  {
    if txs != [] {
      WorkAtMost(txs[..|txs| - 1]);
    }
  }

  // From wherever a schedule has got to, some continuation of handler steps alone
  // finishes every handler.
  lemma {:induction false} Finishes(s: State, ls: seq<Label>, start: map<nat, real>) returns (more: seq<Label>)
    requires Initial(s, start)
    ensures |more| <= Work(Exec(s, ls).txs) && (forall k | 0 <= k < |more| :: more[k].Advance?)
    ensures forall i | 0 <= i < |Exec(s, ls + more).txs| :: Exec(s, ls + more).txs[i].pc.Done?
    decreases Work(Exec(s, ls).txs)
  {
    hide Initial, Next, Enabled, Inv, Work, TxsOk, Locked, RequestsOk, OneWinner, Exec;
    var u := Exec(s, ls);
    WorkDone(u.txs);
    if Work(u.txs) == 0 {
      more := [];
      assert ls + more == ls;
    } else {
      var i: nat :| i < |u.txs| && !u.txs[i].pc.Done?;
      var v := NoDeadlock(s, ls, start, i);
      InvTxs(s, ls, start);
      StepWorks(u, Advance(v));
      ExecSnoc(s, ls, Advance(v));
      var rest := Finishes(s, ls + [Advance(v)], start);
      more := [Advance(v)] + rest;
      assert ls + [Advance(v)] + rest == ls + more;
    }
  }

  lemma ExecSnoc(s: State, ls: seq<Label>, l: Label)
    ensures Exec(s, ls + [l]) == if Enabled(Exec(s, ls), l) then Next(Exec(s, ls), l) else Exec(s, ls)
  {
    assert (ls + [l])[..|ls|] == ls;
  }
}
