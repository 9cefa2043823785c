// When a Stop's Wait panics: a released waiter that finds the wait group in use again.
module RetentionReuse {
  import opened Options
  import opened RetentionLoop
  import opened RetentionSafety
  import opened RetentionStops

  // A step panics exactly when it is the return of a woken Stop while some worker has
  // not exited.
  lemma PanicsExactly(s: State, l: Label)
    requires Inv(s) && Enabled(s, l)
    ensures Next(s, l).panic.Some? <==> l.Return? && exists w | 0 <= w < |s.workers| :: !s.workers[w].phase.Exited?
    ensures Next(s, l).panic in {None, Some(WaitReused)}
  {
    NoneAlive(s.workers);
    if l.Close? {
      assert CallerOk(s, s.callers[l.k]);
    }
  }

  // A Start that launches a worker while some Stop has been woken and not returned.
  ghost predicate Overtakes(s: State, l: Label) {
    && l.Enter? && l.c < |s.callers| && s.callers[l.c].Starting? && !s.started
    && exists r | 0 <= r < |s.callers| :: s.callers[r].Woken?
  }

  // It can be followed by a panic at once.
  lemma OvertakingPanics(s: State, c: nat, r: nat)
    requires Inv(s) && s.panic == None && Overtakes(s, Enter(c)) && r < |s.callers| && s.callers[r].Woken?
    ensures var t := Next(s, Enter(c));
            Enabled(t, Return(r)) && Next(t, Return(r)).panic == Some(WaitReused)
  {
  }

  // No schedule step of the kind.
  ghost predicate Orderly(s: State, ls: seq<Label>) {
    ls == [] || (Orderly(s, ls[..|ls| - 1]) && !Overtakes(Exec(s, ls[..|ls| - 1]), ls[|ls| - 1]))
  }

  // A woken Stop finds the counter at zero.
  ghost predicate Undisturbed(s: State) {
    s.panic == None && forall r | 0 <= r < |s.callers| && s.callers[r].Woken? :: s.count == 0
  }

  // It is the only step that disturbs one.
  lemma OvertakesExactly(s: State, l: Label)
    requires Inv(s) && Undisturbed(s) && Enabled(s, l)
    ensures Undisturbed(Next(s, l)) <==> !Overtakes(s, l)
  {
    var t := Next(s, l);
    if Overtakes(s, l) {
      var r :| 0 <= r < |s.callers| && s.callers[r].Woken?;
      assert t.callers[r].Woken? && t.count == 1;
    } else {
      OrderlyStep(s, l);
    }
  }

  lemma OrderlyStep(s: State, l: Label)
    requires Inv(s) && Undisturbed(s) && Enabled(s, l) && !Overtakes(s, l)
    ensures Undisturbed(Next(s, l))
  {
    var t := Next(s, l);
    if l.Close? {
      assert CallerOk(s, s.callers[l.k]);
    } else if l.Leave? {
      NoneAlive(s.workers);
      AlivePut(s.workers, l.x, t.workers[l.x]);
    }
    hide Alive, CallersOk, NoRivals, AllHandled, WorkersOk;
    forall r | 0 <= r < |t.callers| && t.callers[r].Woken? ensures t.count == 0 {
      assert r < |s.callers| && (s.callers[r].Woken? || l.Leave?);
    }
  }

  // So a schedule in which no Start overtakes a woken Stop never panics.
  lemma {:induction false} OrderlyNeverPanics(ls: seq<Label>)
    requires Orderly(New(), ls)
    ensures Undisturbed(Exec(New(), ls))
    decreases |ls|
  {
    if ls != [] {
      var n := |ls| - 1;
      OrderlyNeverPanics(ls[..n]);
      Safe(ls[..n]);
      hide Inv, Next, Enabled, Overtakes, Undisturbed;
      if Enabled(Exec(New(), ls[..n]), ls[n]) {
        OrderlyStep(Exec(New(), ls[..n]), ls[n]);
      }
    }
  }

  // A run that does panic: a Stop has been woken when a new Start comes in.
  const REUSE := [Join(1), SeeStop(0), Leave(0), CallStart, Enter(2), Return(1)]

  function Reuse(k: nat): State
    requires k <= 6
  {
    var up := Returned(None);
    match k
    case 0 => Restart(6)
    case 1 => State(false, None, [false], [Worker(0, Warmup)], 1, [up, Waiting(0)], None)
    case 2 => State(false, None, [false], [Worker(0, Leaving)], 1, [up, Waiting(0)], None)
    case 3 => State(false, None, [false], [Worker(0, Exited)], 0, [up, Woken(0)], None)
    case 4 => State(false, None, [false], [Worker(0, Exited)], 0, [up, Woken(0), Starting], None)
    case 5 =>
      State(true, Some(1), [false, true], [Worker(0, Exited), Worker(1, Counted)], 1, [up, Woken(0), Spawning(1)], None)
    case 6 => Reuse(5).(panic := Some(WaitReused))
  }

  lemma ReuseStep(k: nat)
    requires k < 6
    ensures Enabled(Reuse(k), REUSE[k]) && Next(Reuse(k), REUSE[k]) == Reuse(k + 1)
  {
    var s, u := Reuse(k), Reuse(k + 1);
    match k
    case 0 => assert s.callers[1 := Waiting(0)] == u.callers;
    case 1 => assert s.workers[0 := Worker(0, Leaving)] == u.workers;
    case 2 =>
      assert s.workers[0 := Worker(0, Exited)] == u.workers;
      assert Next(s, REUSE[k]).callers == u.callers;
    case 3 => assert s.callers + [Starting] == u.callers;
    case 4 => assert s.callers[2 := Spawning(1)] == u.callers;
    case 5 =>
  }

  lemma {:induction false} Reuses(k: nat)
    requires k <= 6
    ensures Exec(New(), RESTART[..6] + REUSE[..k]) == Reuse(k)
  {
    hide Next, Enabled, Restart, New, Exec;
    if k == 0 {
      Restarts(6);
      assert RESTART[..6] + REUSE[..0] == RESTART[..6];
    } else {
      Reuses(k - 1);
      ReuseStep(k - 1);
      ExecSnoc(New(), RESTART[..6] + REUSE[..k - 1], REUSE[k - 1]);
      assert RESTART[..6] + REUSE[..k] == RESTART[..6] + REUSE[..k - 1] + [REUSE[k - 1]];
    }
  }

  lemma ReusePanics()
    ensures Exec(New(), RESTART[..6] + REUSE).panic == Some(WaitReused)
  {
    Reuses(6);
    assert REUSE[..6] == REUSE;
  }
}
