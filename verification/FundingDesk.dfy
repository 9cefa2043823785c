// The approve and reject handlers as they run when nobody else is at work: each
// is the step machine's run of one transaction, cut short where a statement fails.
module FundingDesk {
  import opened Options
  import opened Funding
  import opened FundingSafety
  import opened FundingProgress

  // One handler about to start on committed books.
  function Alone(db: Db, id: nat, pc: Pc, req: nat, actor: nat): State {
    State(db, [Working(pc, req, actor, Request(0, Deposit, 0.0, 0, Pending, None, None, None))],
          map[], map[], id)
  }

  // Its transaction once it has read `row`.
  function Working(pc: Pc, req: nat, actor: nat, row: Request): Tx {
    Tx(pc, req, actor, row, None, 0, 0.0, None)
  }

  ghost predicate Lone(s: State) {
    && |s.txs| == 1
    && (forall r | r in s.reqLock :: s.reqLock[r] == 0)
    && (forall f | f in s.fundLock :: s.fundLock[f] == 0)
  }

  // A lone handler never waits.
  lemma LoneStep(s: State)
    requires Lone(s) && !s.txs[0].pc.Done?
    ensures Enabled(s, Advance(0)) && Lone(Next(s, Advance(0)))
  {
    hide Conflict, Commit;
  }

  // The machine's run of a lone handler whose statement number `failAt` fails.
  ghost function Solo(s: State, failAt: nat): (u: State)
    requires Lone(s)
    ensures |u.txs| == 1
    decreases failAt
  {
    if s.txs[0].pc.Done? then s
    else if failAt == 0 then Abort(s, 0, Failed)
    else LoneStep(s); Solo(Next(s, Advance(0)), failAt - 1)
  }

  // The machine, one statement on, with the statements to come before it fails.
  lemma Ran(s: State, left: nat) returns (t: State)
    requires Lone(s) && !s.txs[0].pc.Done?
    ensures t == Next(s, Advance(0)) && Lone(t) && Solo(s, left + 1) == Solo(t, left)
  {
    LoneStep(s);
    t := Next(s, Advance(0));
  }

  // The books an approval leaves.
  function Booked(db: Db, id: nat, req: nat, actor: nat, row: Request): Db {
    var known := Conflict(db.ledger, row.fund, req);
    Db(db.requests[req := Approve(row, actor, if known.Some? then known.value else id)],
       if row.fund in db.capital then db.capital[row.fund := db.capital[row.fund] + Signed(row)] else db.capital,
       if known.Some? then db.ledger else db.ledger + [Entry(id, row.fund, row.direction, Signed(row), req)])
  }

  // The last two statements of an approval, and the writes they make good.
  lemma MarkRuns(s: State, left: nat)
    requires Lone(s) && s.txs[0].pc.MarkApproved?
    requires s.txs[0].req in s.db.requests && s.db.requests[s.txs[0].req].status == Pending
    ensures var u, t := Solo(s, left), s.txs[0];
            && u.txs[0].pc == Done(if left < 2 then Failed else Committed)
            && u.db == (if left < 2 then s.db
                        else Commit(s.db, t.(mark := Some(Approve(s.db.requests[t.req], t.actor, t.entryId)))))
  {
    if left > 0 {
      var s1 := Ran(s, left - 1);
      if left > 1 {
        var s2 := Ran(s1, left - 2);
      }
    }
  }

  lemma BufferedIsBooked(db: Db, id: nat, t: Tx)
    requires t.delta == Signed(t.row)
    requires var known := Conflict(db.ledger, t.row.fund, t.req);
             if known.Some? then t.entryId == known.value && t.entry == None
             else t.entryId == id && t.entry == Some(Entry(id, t.row.fund, t.row.direction, Signed(t.row), t.req))
    ensures Commit(db, t.(mark := Some(Approve(t.row, t.actor, t.entryId)))) == Booked(db, id, t.req, t.actor, t.row)
  {
  }

  // The four statements after the checks.
  lemma PostRuns(s: State, req: nat, actor: nat, row: Request, left: nat)
    requires Lone(s) && s.txs[0] == Working(Append, req, actor, row)
    requires req in s.db.requests && s.db.requests[req] == row && row.status == Pending
    ensures var u := Solo(s, left);
            && u.txs[0].pc == Done(if left < 4 then Failed else Committed)
            && u.db == (if left < 4 then s.db else Booked(s.db, s.idBase, req, actor, row))
  {
    hide Conflict, KeyFree;
    if left > 0 {
      var s1 := Ran(s, left - 1);
      if left > 1 {
        var s2 := Ran(s1, left - 2);
        hide Solo, Lone, Commit, Booked;
        MarkRuns(s2, left - 2);
        var t := s2.txs[0];
        BufferedIsBooked(s.db, s.idBase, t);
      }
    }
  }

  // --- What the caller is told ------------------------------------------------------

  // Pending, and somebody else's.
  predicate Decidable(db: Db, req: nat, actor: nat) {
    req in db.requests && db.requests[req].status == Pending && db.requests[req].requestedBy != actor
  }

  // The answer of either handler once it has read the request: unknown, already
  // decided, or the handler's own.
  predicate Refuses(db: Db, req: nat, actor: nat, outcome: Outcome) {
    && (outcome == NotFound <==> req !in db.requests)
    && (outcome == NotPending <==> req in db.requests && db.requests[req].status != Pending)
    && (outcome == FourEyeViolation <==>
          req in db.requests && db.requests[req].status == Pending && db.requests[req].requestedBy == actor)
  }

  // The answer to an approval with nobody else at work; Failed is what is left.
  predicate ApprovalAnswer(db: Db, req: nat, actor: nat, failAt: nat, outcome: Outcome) {
    && (if failAt == 0 then outcome == Failed else Refuses(db, req, actor, outcome))
    && (outcome == InsufficientCash <==>
          && Decidable(db, req, actor) && failAt > 1
          && var row := db.requests[req];
             row.direction == Withdrawal && row.fund in db.capital && db.capital[row.fund] < row.amount - 0.0001)
    && (outcome == Committed <==>
          && Decidable(db, req, actor)
          && var row := db.requests[req];
             if row.direction == Withdrawal
             then failAt >= 6 && row.fund in db.capital && db.capital[row.fund] >= row.amount - 0.0001
             else failAt >= 5)
    && outcome != StateConflict
  }

  predicate RejectionAnswer(db: Db, req: nat, actor: nat, failAt: nat, outcome: Outcome) {
    && (if failAt == 0 then outcome == Failed else Refuses(db, req, actor, outcome))
    && (outcome == Committed <==> Decidable(db, req, actor) && failAt >= 3)
    && outcome != InsufficientCash && outcome != StateConflict
  }

  // The first statement turns away whoever may not decide the request.
  lemma TurnedAway(s: State, left: nat)
    requires Lone(s) && (s.txs[0].pc.Lookup? || s.txs[0].pc.Read?)
    requires !Decidable(s.db, s.txs[0].req, s.txs[0].actor)
    ensures var u := Solo(s, left + 1);
            && u.db == s.db && u.txs[0].pc.Done? && Refuses(s.db, s.txs[0].req, s.txs[0].actor, u.txs[0].pc.outcome)
            && u.txs[0].pc.outcome in {NotFound, NotPending, FourEyeViolation}
  {
    hide Conflict, Commit;
    var t := Ran(s, left);
  }

  // All or nothing, whichever statement fails: the books are left as they were or
  // with the whole approval in them, and the handler reports success exactly then.
  lemma AllOrNothing(db: Db, id: nat, req: nat, actor: nat, failAt: nat)
    ensures var u := Solo(Alone(db, id, Lookup, req, actor), failAt);
            && u.txs[0].pc.Done? && ApprovalAnswer(db, req, actor, failAt, u.txs[0].pc.outcome)
            && u.db == (if u.txs[0].pc.outcome == Committed then Booked(db, id, req, actor, db.requests[req]) else db)
  {
    var s := Alone(db, id, Lookup, req, actor);
    hide Conflict, Commit, Booked, KeyFree;
    if failAt > 0 && !Decidable(db, req, actor) {
      TurnedAway(s, failAt - 1);
      hide Solo;
    } else if failAt > 0 {
      DecidableRuns(db, id, req, actor, failAt);
      hide Solo;
    }
  }

  // Once its checks have passed a handler is about to insert the ledger row.
  lemma ChecksPass(db: Db, id: nat, req: nat, actor: nat, left: nat) returns (t: State, rest: nat)
    requires Decidable(db, req, actor)
    requires var row := db.requests[req];
             row.direction == Withdrawal ==>
               left > 0 && row.fund in db.capital && db.capital[row.fund] >= row.amount - SLACK
    ensures var row := db.requests[req];
            && Lone(t) && t.db == db && t.idBase == id && t.txs[0] == Working(Append, req, actor, row)
            && Solo(Alone(db, id, Lookup, req, actor), left + 1) == Solo(t, rest)
            && rest == if row.direction == Withdrawal then left - 1 else left
  {
    hide Conflict, Commit, Solo, KeyFree;
    rest := left;
    t := Ran(Alone(db, id, Lookup, req, actor), left);
    if db.requests[req].direction == Withdrawal {
      rest := left - 1;
      t := Ran(t, rest);
    }
  }

  lemma DecidableRuns(db: Db, id: nat, req: nat, actor: nat, failAt: nat)
    requires failAt > 0 && Decidable(db, req, actor)
    ensures var u := Solo(Alone(db, id, Lookup, req, actor), failAt);
            var row := db.requests[req];
            var money := if row.direction == Deposit then 0 else 1;
            && u.txs[0].pc ==
               (if money == 0 || (failAt > 1 && row.fund in db.capital && db.capital[row.fund] >= row.amount - SLACK)
                then Done(if failAt < 5 + money then Failed else Committed)
                else Done(if failAt > 1 && row.fund in db.capital then InsufficientCash else Failed))
            && u.db == if u.txs[0].pc == Done(Committed) then Booked(db, id, req, actor, row) else db
  {
    var s := Alone(db, id, Lookup, req, actor);
    hide Conflict, Commit, Booked, KeyFree;
    var row := db.requests[req];
    if row.direction == Withdrawal
       && !(failAt > 1 && row.fund in db.capital && db.capital[row.fund] >= row.amount - SLACK) {
      var s1 := Ran(s, failAt - 1);
    } else {
      hide Solo;
      var t, rest := ChecksPass(db, id, req, actor, failAt - 1);
      PostRuns(t, req, actor, row, rest);
    }
  }

  // A deposit raises its fund's capital and a withdrawal lowers it, by the amount; the
  // ledger gets one row of that change under the request's key, unless it has one for
  // the fund already; and the request's record names who approved it and the row.
  ghost predicate HasApproved(before: Db, id: nat, req: nat, actor: nat, after: Db)
    requires req in before.requests
  {
    var row := before.requests[req];
    var change := if row.direction == Withdrawal then -row.amount else row.amount;
    && after.capital.Keys == before.capital.Keys
    && (forall f | f in before.capital ::
          after.capital[f] == before.capital[f] + if f == row.fund then change else 0.0)
    && after.requests.Keys == before.requests.Keys
    && (forall r | r in before.requests && r != req :: after.requests[r] == before.requests[r])
    && var now := after.requests[req];
       && now == row.(status := Approved, approvedBy := Some(actor), entryId := now.entryId) && now.entryId.Some?
       && if exists k | 0 <= k < |before.ledger| :: IsKeyed(before.ledger[k], row.fund, req)
          then after.ledger == before.ledger
               && exists k | 0 <= k < |before.ledger| ::
                    IsKeyed(before.ledger[k], row.fund, req) && before.ledger[k].id == now.entryId.value
          else after.ledger == before.ledger + [Entry(id, row.fund, row.direction, change, req)]
               && now.entryId.value == id
  }

  predicate IsKeyed(e: Entry, fund: nat, key: nat) {
    e.fund == fund && e.key == key
  }

  lemma {:induction false} ConflictIs(ledger: seq<Entry>, fund: nat, key: nat)
    ensures Conflict(ledger, fund, key).Some? <==> exists k | 0 <= k < |ledger| :: IsKeyed(ledger[k], fund, key)
    ensures Conflict(ledger, fund, key).Some? ==>
              exists k | 0 <= k < |ledger| ::
                IsKeyed(ledger[k], fund, key) && ledger[k].id == Conflict(ledger, fund, key).value
    decreases |ledger|
  {
    if ledger != [] {
      var n := |ledger| - 1;
      ConflictIs(ledger[..n], fund, key);
      assert forall k | 0 <= k < n :: ledger[..n][k] == ledger[k];
      if !IsKeyed(ledger[n], fund, key) {
        assert forall k | 0 <= k < |ledger| && IsKeyed(ledger[k], fund, key) :: ledger[..n][k] == ledger[k];
      }
    }
  }

  lemma BookedIs(db: Db, id: nat, req: nat, actor: nat)
    requires req in db.requests
    ensures HasApproved(db, id, req, actor, Booked(db, id, req, actor, db.requests[req]))
  {
    ConflictIs(db.ledger, db.requests[req].fund, req);
    hide Conflict;
  }

  // So an approval answers, and leaves the books, by the state it found alone.
  lemma ApprovalAnswers(db: Db, id: nat, req: nat, actor: nat, failAt: nat)
    ensures var u := Solo(Alone(db, id, Lookup, req, actor), failAt);
            && u.txs[0].pc.Done?
            && ApprovalAnswer(db, req, actor, failAt, u.txs[0].pc.outcome)
            && (if u.txs[0].pc.outcome == Committed then HasApproved(db, id, req, actor, u.db) else u.db == db)
  {
    AllOrNothing(db, id, req, actor, failAt);
    if req in db.requests {
      BookedIs(db, id, req, actor);
    }
    hide Solo, Booked, HasApproved;
  }

  // A rejection moves no money: it puts its admin's name in the request's record.
  lemma RejectionAnswers(db: Db, id: nat, req: nat, actor: nat, failAt: nat)
    ensures var u := Solo(Alone(db, id, Read, req, actor), failAt);
            && u.txs[0].pc.Done?
            && RejectionAnswer(db, req, actor, failAt, u.txs[0].pc.outcome)
            && u.db == if u.txs[0].pc.outcome == Committed then
                         db.(requests := db.requests[req := db.requests[req].(status := Rejected,
                                                                             rejectedBy := Some(actor))])
                       else db
  {
    var s := Alone(db, id, Read, req, actor);
    if failAt > 0 && !Decidable(db, req, actor) {
      TurnedAway(s, failAt - 1);
      hide Solo;
    } else if failAt > 0 {
      var s1 := Ran(s, failAt - 1);
      if failAt > 1 {
        var s2 := Ran(s1, failAt - 2);
        if failAt > 2 {
          var s3 := Ran(s2, failAt - 3);
        }
      }
    }
  }

  // Retrying an approval that went through posts nothing more, whoever retries it.
  lemma RetryIsHarmless(db: Db, id: nat, req: nat, actor: nat, failAt: nat, again: nat, failAgain: nat)
    ensures var u := Solo(Alone(db, id, Lookup, req, actor), failAt);
            var v := Solo(Alone(u.db, id + 1, Lookup, req, again), failAgain);
            u.txs[0].pc == Done(Committed) ==> v.db == u.db && v.txs[0].pc != Done(Committed)
  {
    AllOrNothing(db, id, req, actor, failAt);
    var u := Solo(Alone(db, id, Lookup, req, actor), failAt);
    hide Solo;
    AllOrNothing(u.db, id + 1, req, again, failAgain);
  }

  function Advances(n: nat): seq<Label> {
    seq(n, k => Advance(0))
  }

  lemma {:induction false} ExecCons(s: State, l: Label, ls: seq<Label>)
    ensures Exec(s, [l] + ls) == Exec(if Enabled(s, l) then Next(s, l) else s, ls)
    decreases |ls|
  {
    if ls == [] {
      assert [l] + ls == [] + [l];
      ExecSnoc(s, [], l);
    } else {
      var n := |ls| - 1;
      ExecCons(s, l, ls[..n]);
      assert ([l] + ls)[..|[l] + ls| - 1] == [l] + ls[..n];
    }
  }

  lemma {:induction false} DoneStays(s: State, ls: seq<Label>)
    requires |s.txs| == 1 && s.txs[0].pc.Done? && forall l | l in ls :: l == Advance(0) || l == Fail(0)
    ensures Exec(s, ls) == s
    decreases |ls|
  {
    if ls != [] {
      var rest := ls[..|ls| - 1];
      assert ls[|ls| - 1] in ls && forall l | l in rest :: l in ls;
      DoneStays(s, rest);
    }
  }

  // Running alone is one of the schedules, so whatever holds of every schedule
  // holds of it.
  lemma {:induction false} SoloIsSchedule(s: State, failAt: nat)
    requires Lone(s)
    ensures Solo(s, failAt) == Exec(s, Advances(failAt) + [Fail(0)])
    decreases failAt
  {
    if s.txs[0].pc.Done? {
      DoneStays(s, Advances(failAt) + [Fail(0)]);
    } else if failAt == 0 {
      assert Advances(0) + [Fail(0)] == [] + [Fail(0)];
      ExecSnoc(s, [], Fail(0));
    } else {
      LoneStep(s);
      hide Next, Enabled, Lone;
      var t := Next(s, Advance(0));
      assert |t.txs| == 1 by { assert Solo(t, 0).txs == Solo(t, 0).txs; }
      SoloIsSchedule(t, failAt - 1);
      assert Advances(failAt) + [Fail(0)] == [Advance(0)] + (Advances(failAt - 1) + [Fail(0)]);
      ExecCons(s, Advance(0), Advances(failAt - 1) + [Fail(0)]);
    }
  }

  // Committed books in order, with capital accounted for from `start` and no ledger id
  // used that is still to be given out.
  ghost predicate InOrder(db: Db, nextId: nat, start: map<nat, real>) {
    && RequestsOk(db) && LedgerOk(db) && CapitalOk(db, start)
    && forall k | 0 <= k < |db.ledger| :: db.ledger[k].id < nextId
  }

  lemma {:induction false} SameBase(s: State, ls: seq<Label>)
    ensures Exec(s, ls).idBase == s.idBase && |Exec(s, ls).txs| == |s.txs|
    decreases |ls|
  {
    if ls != [] {
      hide Next, Enabled, Work;
      var t := Exec(s, ls[..|ls| - 1]);
      SameBase(s, ls[..|ls| - 1]);
      if Enabled(t, ls[|ls| - 1]) {
        StepWorks(t, ls[|ls| - 1]);
      }
    }
  }

  // So a lone handler, wherever it is cut short, leaves the books in order.
  lemma SoloKeepsBooks(db: Db, id: nat, pc: Pc, req: nat, actor: nat, failAt: nat, start: map<nat, real>)
    requires InOrder(db, id, start) && (pc.Lookup? || pc.Read?)
    ensures InOrder(Solo(Alone(db, id, pc, req, actor), failAt).db, id + 1, start)
  {
    var s := Alone(db, id, pc, req, actor);
    assert Initial(s, start);
    SoloIsSchedule(s, failAt);
    Safe(s, Advances(failAt) + [Fail(0)], start);
    SameBase(s, Advances(failAt) + [Fail(0)]);
    hide Solo, Exec, RequestsOk, LedgerOk, CapitalOk, Locked, TxsOk, OneWinner;
  }

  // The cash identity after a lone approval: capital is accounted for by ledger rows,
  // and the request has a row exactly if it is approved.
  lemma ApprovalKeepsCash(db: Db, id: nat, req: nat, actor: nat, failAt: nat, start: map<nat, real>, fund: nat)
    requires InOrder(db, id, start) && fund in start
    ensures var after := Solo(Alone(db, id, Lookup, req, actor), failAt).db;
            && fund in after.capital && after.capital[fund] == start[fund] + SumFor(after.ledger, fund)
            && (start[fund] >= 0.0 ==> after.capital[fund] >= -SLACK)
            && (Posted(after, req) <==> req in after.requests && after.requests[req].status == Approved)
  {
    var s := Alone(db, id, Lookup, req, actor);
    assert Initial(s, start);
    SoloIsSchedule(s, failAt);
    CashIdentity(s, Advances(failAt) + [Fail(0)], start, fund, req);
  }

  // After an approved withdrawal capital is non-negative exactly when it covered the
  // whole amount before.
  lemma OverdrawsExactly(db: Db, id: nat, req: nat, actor: nat, failAt: nat)
    requires req in db.requests && db.requests[req].direction == Withdrawal
    ensures var u := Solo(Alone(db, id, Lookup, req, actor), failAt);
            var row := db.requests[req];
            u.txs[0].pc == Done(Committed) ==>
              && row.fund in db.capital && row.fund in u.db.capital
              && u.db.capital[row.fund] == db.capital[row.fund] - row.amount
              && (u.db.capital[row.fund] >= 0.0 <==> row.amount <= db.capital[row.fund])
  {
    AllOrNothing(db, id, req, actor, failAt);
    hide Solo, Conflict;
  }

  // One pending withdrawal of everything and 0.0001 more.
  function Overdrawn(capital: real): Db {
    Db(map[1 := Request(0, Withdrawal, capital + SLACK, 7, Pending, None, None, None)], map[0 := capital], [])
  }

  lemma OverdrawnBooks(db: Db, capital: real)
    requires db == Overdrawn(capital) && capital >= 0.0
    ensures InOrder(db, 0, map[0 := capital])
  {
    assert RecordOk(db.requests[1]) && SumFor(db.ledger, 0) == 0.0;
  }

  // It is approved, so the lower bound on capital is reached, from any start.
  lemma BoundIsReached(capital: real, actor: nat)
    requires capital >= 0.0 && actor != 7
    ensures InOrder(Overdrawn(capital), 0, map[0 := capital])
    ensures Overdrawn(capital).requests[1].amount == capital + SLACK && Overdrawn(capital).capital[0] == capital
    ensures var u := Solo(Alone(Overdrawn(capital), 0, Lookup, 1, actor), 6);
            u.txs[0].pc == Done(Committed) && 0 in u.db.capital && u.db.capital[0] == -SLACK
  {
    var db := Overdrawn(capital);
    OverdrawnBooks(db, capital);
    AllOrNothing(db, 0, 1, actor, 6);
    hide Solo, Conflict, Booked, InOrder;
    OverdrawsExactly(db, 0, 1, actor, 6);
  }

  // What Approve has to meet: the machine's end state `u`, what its answer is in each
  // case, and, if the checks pass, its state `s` before the writes.
  lemma Answered(db: Db, id: nat, req: nat, actor: nat, failAt: nat) returns (s: State, u: State)
    ensures u == Solo(Alone(db, id, Lookup, req, actor), failAt) && |u.txs| == 1 && u.txs[0].pc.Done?
    ensures ApprovalAnswer(db, req, actor, failAt, u.txs[0].pc.outcome)
    ensures if u.txs[0].pc.outcome == Committed then HasApproved(db, id, req, actor, u.db) else u.db == db
    ensures forall start :: InOrder(db, id, start) ==> InOrder(u.db, id + 1, start)
    ensures Early(db, req, actor, failAt) == None ==>
              var row := db.requests[req];
              var left := if row.direction == Withdrawal then failAt - 2 else failAt - 1;
              Lone(s) && s.db == db && s.idBase == id && s.txs[0] == Working(Append, req, actor, row)
              && Solo(s, left) == u
    ensures var o := Early(db, req, actor, failAt); o.Some? ==> u.txs[0].pc.outcome == o.value
  {
    hide Solo, InOrder, HasApproved, Working, ApprovalAnswer;
    forall start | InOrder(db, id, start)
      ensures InOrder(Solo(Alone(db, id, Lookup, req, actor), failAt).db, id + 1, start)
    {
      SoloKeepsBooks(db, id, Lookup, req, actor, failAt, start);
    }
    ApprovalAnswers(db, id, req, actor, failAt);
    s := Alone(db, id, Lookup, req, actor);
    u := Solo(s, failAt);
    EarlyIs(db, req, actor, failAt, u.txs[0].pc.outcome);
    if Early(db, req, actor, failAt) == None {
      var rest;
      s, rest := ChecksPass(db, id, req, actor, failAt - 1);
    }
  }

  // The answer of a handler that does not get to its writes.
  function Early(db: Db, req: nat, actor: nat, failAt: nat): (o: Option<Outcome>)
    ensures o == None ==> failAt > 0 && Decidable(db, req, actor)
  {
    if failAt == 0 then Some(Failed)
    else if req !in db.requests then Some(NotFound)
    else
      var row := db.requests[req];
      if row.status != Pending then Some(NotPending)
      else if row.requestedBy == actor then Some(FourEyeViolation)
      else if row.direction == Deposit then None
      else if failAt == 1 || row.fund !in db.capital then Some(Failed)
      else if db.capital[row.fund] < row.amount - SLACK then Some(InsufficientCash)
      else None
  }

  lemma EarlyIs(db: Db, req: nat, actor: nat, failAt: nat, outcome: Outcome)
    requires ApprovalAnswer(db, req, actor, failAt, outcome)
    ensures var o := Early(db, req, actor, failAt); o.Some? ==> outcome == o.value
  {
  }

  // The funding tables and the two handlers' transactions over them. `failAt`
  // says which statement, counted from the handler's first, finds the database
  // gone; a handler that leaves early has its writes rolled back.
  class Desk {
    var db: Db
    var nextId: nat

    constructor (db: Db, nextId: nat)
      ensures this.db == db && this.nextId == nextId
    {
      this.db, this.nextId := db, nextId;
    }

    method Approve(req: nat, actor: nat, failAt: nat) returns (outcome: Outcome)
      modifies this
      ensures var u := Solo(Alone(old(db), old(nextId), Lookup, req, actor), failAt);
              db == u.db && u.txs[0].pc == Done(outcome)
      ensures ApprovalAnswer(old(db), req, actor, failAt, outcome)
      ensures if outcome == Committed then HasApproved(old(db), old(nextId), req, actor, db) else db == old(db)
      ensures forall start :: InOrder(old(db), old(nextId), start) ==> InOrder(db, nextId, start)
    {
      hide Solo, HasApproved, InOrder, Lone, Alone, Working, Booked, ApprovalAnswer, Conflict;
      ghost var s, u := Answered(db, nextId, req, actor, failAt);
      var early, left := Check(req, actor, failAt);
      if early.Some? { return early.value; }
      outcome := Post(s, req, actor, db.requests[req], left);
    }

    // The lookup under the row lock, and a withdrawal's look at the capital; `left` is
    // how many statements still run.
    method Check(req: nat, actor: nat, failAt: nat) returns (early: Option<Outcome>, left: nat)
      ensures early == Early(db, req, actor, failAt)
      ensures early == None ==> left == if db.requests[req].direction == Withdrawal then failAt - 2 else failAt - 1
    {
      if failAt == 0 { return Some(Failed), 0; }
      if req !in db.requests { return Some(NotFound), 0; }
      var row := db.requests[req];
      if row.status != Pending { return Some(NotPending), 0; }
      if row.requestedBy == actor { return Some(FourEyeViolation), 0; }
      left := failAt - 1;
      if row.direction == Withdrawal {
        if left == 0 || row.fund !in db.capital { return Some(Failed), 0; }
        if db.capital[row.fund] < row.amount - SLACK { return Some(InsufficientCash), 0; }
        left := left - 1;
      }
      early := None;
    }

    // The writes of an approval, buffered until the commit.
    method Post(ghost s: State, req: nat, actor: nat, row: Request, left: nat) returns (outcome: Outcome)
      requires Lone(s) && s.db == db && s.idBase == nextId && s.txs[0] == Working(Funding.Append, req, actor, row)
      requires req in db.requests && db.requests[req] == row && row.status == Pending
      modifies this
      ensures var u := Solo(s, left); db == u.db && u.txs[0].pc == Done(outcome)
      ensures if outcome == Committed then nextId == old(nextId) + 1 else db == old(db) && nextId == old(nextId)
    {
      PostRuns(s, req, actor, row, left);
      hide Conflict, Solo, Lone;
      var signed := if row.direction == Deposit then row.amount else -row.amount;
      if left == 0 { return Failed; }
      var ledger, entryId := Append(row, req, signed);
      if left == 1 { return Failed; }
      var capital := db.capital;
      if row.fund in capital {
        capital := capital[row.fund := capital[row.fund] + signed];
      }
      if left == 2 { return Failed; }
      var requests := db.requests[req := row.(status := Approved, approvedBy := Some(actor), entryId := Some(entryId))];
      if left == 3 { return Failed; }
      db := Db(requests, capital, ledger);
      nextId := nextId + 1;
      return Committed;
    }

    // The cash ledger's insert, which leaves a row already there under the key.
    method Append(row: Request, req: nat, signed: real) returns (ledger: seq<Entry>, entryId: nat)
      ensures var known := Conflict(db.ledger, row.fund, req);
              if known.Some? then ledger == db.ledger && entryId == known.value
              else entryId == nextId && ledger == db.ledger + [Entry(nextId, row.fund, row.direction, signed, req)]
    {
      ledger, entryId := db.ledger, nextId;
      var k := |ledger|;
      assert ledger[..k] == ledger;
      while k > 0
        invariant 0 <= k <= |ledger| == |db.ledger| && ledger == db.ledger && entryId == nextId
        invariant Conflict(db.ledger, row.fund, req) == Conflict(db.ledger[..k], row.fund, req)
      {
        k := k - 1;
        assert db.ledger[..k + 1][..k] == db.ledger[..k];
        if ledger[k].fund == row.fund && ledger[k].key == req {
          return ledger, ledger[k].id;
        }
      }
      ledger := ledger + [Entry(nextId, row.fund, row.direction, signed, req)];
    }

    method Reject(req: nat, actor: nat, failAt: nat) returns (outcome: Outcome)
      modifies this`db
      ensures var u := Solo(Alone(old(db), nextId, Read, req, actor), failAt);
              db == u.db && u.txs[0].pc == Done(outcome)
      ensures RejectionAnswer(old(db), req, actor, failAt, outcome)
      ensures db.capital == old(db).capital && db.ledger == old(db).ledger && (outcome != Committed ==> db == old(db))
      ensures outcome == Committed ==>
                db.requests == old(db).requests[req := old(db).requests[req].(status := Rejected,
                                                                              rejectedBy := Some(actor))]
    {
      RejectionAnswers(db, nextId, req, actor, failAt);
      hide Solo, Commit, Conflict;
      ghost var s := Alone(db, nextId, Read, req, actor);
      if failAt == 0 { return Failed; }
      if req !in db.requests { return NotFound; }
      var row := db.requests[req];
      if row.status != Pending { return NotPending; }
      if row.requestedBy == actor { return FourEyeViolation; }
      s := Ran(s, failAt - 1);
      if failAt == 1 { return Failed; }
      var requests := db.requests[req := row.(status := Rejected, rejectedBy := Some(actor))];
      s := Ran(s, failAt - 2);
      if failAt == 2 { return Failed; }
      s := Ran(s, failAt - 3);
      db := db.(requests := requests);
      return Committed;
    }
  }
}
