// When a Stop of the retention loop returns, and what it may wait for.
module RetentionStops {
  import opened Options
  import opened RetentionLoop
  import opened RetentionSafety

  // Over every interleaving: no channel is closed twice, a started loop has an open
  // channel, every worker but the one that channel belongs to has its own closed or
  // about to be by a Stop, and the wait counter is the number of workers launched
  // and not exited.
  lemma LifeCycle(ls: seq<Label>)
    ensures var t := Exec(New(), ls);
            && t.panic != Some(ClosedTwice) && t.count == Alive(t.workers)
            && (t.started ==> t.stopCh.Some? && t.stopCh.value < |t.open| && t.open[t.stopCh.value])
            && (forall w | 0 <= w < |t.workers| && !(t.started && t.stopCh == Some(w)) ::
                  t.workers[w].channel == w < |t.open| && (!t.open[w] || Closing(w) in t.callers))
  {
    Safe(ls);
    var t := Exec(New(), ls);
    forall w | 0 <= w < |t.workers| && !(t.started && t.stopCh == Some(w))
      ensures t.workers[w].channel == w < |t.open| && (!t.open[w] || Closing(w) in t.callers)
    {
      assert WorkerOk(t, w) && Handled(t, w);
    }
  }

  // One step's move of a goroutine, if it moves.  From warm-up or between sweeps it goes
  // to sweep when its timer fires and to leave when its channel is closed, from a sweep
  // only back to waiting for the next, and from leaving only out.
  predicate PhaseMove(p: Phase, q: Phase, w: nat, closed: bool, l: Label) {
    match q
    case Counted => false
    case Warmup => p.Counted? && l.Spawn?
    case Sweeping => (p.Warmup? || p.Ticking?) && l == Timer(w)
    case Ticking => p.Sweeping? && l == Swept(w)
    case Leaving => (p.Warmup? || p.Ticking?) && closed && l == SeeStop(w)
    case Exited => p.Leaving? && l == Leave(w)
  }

  lemma PhaseMoves(s: State, l: Label, w: nat)
    requires Inv(s) && Enabled(s, l) && w < |s.workers|
    ensures w < |Next(s, l).workers| && Next(s, l).workers[w].channel == s.workers[w].channel < |s.open|
    ensures var p, q := s.workers[w].phase, Next(s, l).workers[w].phase;
            && (p != q ==> PhaseMove(p, q, w, !s.open[s.workers[w].channel], l))
            && (l in {Timer(w), Swept(w), SeeStop(w), Leave(w)} ==> p != q)
    ensures l.Spawn? ==> s.callers[l.s].worker < |s.workers| && Next(s, l).callers[l.s] == Returned(None)
                         && Next(s, l).workers[s.callers[l.s].worker].phase == Warmup
  {
    assert WorkerOk(s, w);
    if l.Spawn? {
      assert CallerOk(s, s.callers[l.s]);
      assert WorkerOk(s, s.callers[l.s].worker);
    }
    hide CallersOk, NoRivals, AllHandled, Alive;
  }

  lemma ExecSnoc(s: State, ls: seq<Label>, l: Label)
    ensures Exec(s, ls + [l]) == if Enabled(Exec(s, ls), l) then Next(Exec(s, ls), l) else Exec(s, ls)
  {
    assert (ls + [l])[..|ls|] == ls;
  }

  lemma {:induction false} ExecAll(s: State, ls: seq<Label>, more: seq<Label>)
    ensures Exec(s, ls + more) == Exec(Exec(s, ls), more)
    decreases |more|
  {
    if more == [] {
      assert ls + more == ls;
    } else {
      var n := |more| - 1;
      ExecAll(s, ls, more[..n]);
      assert (ls + more)[..|ls + more| - 1] == ls + more[..n];
    }
  }

  // An exited worker stays exited.
  lemma {:induction false} ExitedStays(s: State, ls: seq<Label>, w: nat)
    requires Inv(s) && HasExited(s, w)
    ensures HasExited(Exec(s, ls), w) && Inv(Exec(s, ls))
    decreases |ls|
  {
    if ls != [] {
      var n := |ls| - 1;
      ExitedStays(s, ls[..n], w);
      var t := Exec(s, ls[..n]);
      if Enabled(t, ls[n]) {
        StepExited(t, ls[n], w);
        hide Inv, Next;
        StepInv(t, ls[n]);
      }
    }
  }

  lemma StepExited(s: State, l: Label, w: nat)
    requires CallersOk(s) && Enabled(s, l) && HasExited(s, w)
    ensures HasExited(Next(s, l), w)
  {
  }

  // A Stop that detached a worker returns only after that worker has exited, and it
  // never comes back.
  lemma StopSeesExit(ls: seq<Label>, more: seq<Label>, c: nat)
    ensures var t := Exec(New(), ls);
            c < |t.callers| && t.callers[c].Returned? && t.callers[c].stopped.Some? ==>
              HasExited(Exec(New(), ls + more), t.callers[c].stopped.value)
  {
    Safe(ls);
    var t := Exec(New(), ls);
    if c < |t.callers| {
      assert CallerOk(t, t.callers[c]);
      if t.callers[c].Returned? && t.callers[c].stopped.Some? {
        ExitedStays(t, more, t.callers[c].stopped.value);
        ExecAll(New(), ls, more);
      }
    }
  }

  // --- What a Stop waits for ------------------------------------------------------

  // Not only for its own worker: it wakes exactly when no worker at all is left.
  lemma WakesExactly(s: State, w: nat, c: nat)
    requires Inv(s) && Enabled(s, Leave(w)) && c < |s.callers| && s.callers[c].Waiting?
    ensures var t := Next(s, Leave(w));
            t.callers[c].Woken? <==> forall v | 0 <= v < |t.workers| :: t.workers[v].phase.Exited?
  {
    var t := Next(s, Leave(w));
    AlivePut(s.workers, w, t.workers[w]);
    NoneAlive(t.workers);
  }

  // Nobody is about to stop the loop again.
  ghost predicate NoneStopping(s: State) {
    forall c | 0 <= c < |s.callers| :: !s.callers[c].Stopping?
  }

  lemma StepHangs(s: State, l: Label, c: nat)
    requires Inv(s) && s.started && NoneStopping(s) && Enabled(s, l) && l != CallStop
    requires c < |s.callers| && s.callers[c].Waiting?
    ensures var t := Next(s, l);
            Inv(t) && t.started && NoneStopping(t) && c < |t.callers| && t.callers[c] == s.callers[c]
  {
    StepInv(s, l);
    var t := Next(s, l);
    assert WorkerOk(s, |s.workers| - 1);
    if l.Leave? {
      AlivePut(s.workers, l.x, t.workers[l.x]);
      NoneAlive(t.workers);
      assert WorkerOk(s, l.x);
    }
    hide WorkerOk, CallerOk, Handled, Alive, NoRivals;
  }

  // So if the loop was started again in the meantime and nobody else stops it, a
  // waiting Stop never returns, even though its own worker may have exited.
  lemma {:induction false} StopHangs(s: State, ls: seq<Label>, c: nat)
    requires Inv(s) && s.started && NoneStopping(s) && c < |s.callers| && s.callers[c].Waiting?
    requires forall l | l in ls :: l != CallStop
    ensures var t := Exec(s, ls); c < |t.callers| && t.callers[c] == s.callers[c]
    ensures var t := Exec(s, ls); Inv(t) && t.started && NoneStopping(t)
    decreases |ls|
  {
    if ls != [] {
      var n := |ls| - 1;
      assert ls[n] in ls && forall l | l in ls[..n] :: l in ls;
      hide Inv, NoneStopping, Next, Enabled;
      StopHangs(s, ls[..n], c);
      if Enabled(Exec(s, ls[..n]), ls[n]) {
        StepHangs(Exec(s, ls[..n]), ls[n], c);
      }
    }
  }

  // One Stop and a second Start are enough.
  const RESTART := [CallStart, Enter(0), Spawn(0), CallStop, Enter(1), Close(1), CallStart, Enter(2), Spawn(2),
                    SeeStop(0), Leave(0), Join(1)]

  function Restart(k: nat): State
    requires k <= 12
  {
    var up := Returned(None);
    var on, both := Worker(0, Warmup), [false, true];
    match k
    case 0 => New()
    case 1 => State(false, Some(0), [true], [], 0, [Starting], None)
    case 2 => State(true, Some(0), [true], [Worker(0, Counted)], 1, [Spawning(0)], None)
    case 3 => State(true, Some(0), [true], [on], 1, [up], None)
    case 4 => State(true, Some(0), [true], [on], 1, [up, Stopping], None)
    case 5 => State(false, None, [true], [on], 1, [up, Closing(0)], None)
    case 6 => State(false, None, [false], [on], 1, [up, Joining(0)], None)
    case 7 => State(false, None, [false], [on], 1, [up, Joining(0), Starting], None)
    case 8 => State(true, Some(1), both, [on, Worker(1, Counted)], 2, [up, Joining(0), Spawning(1)], None)
    case 9 => State(true, Some(1), both, [on, Worker(1, Warmup)], 2, [up, Joining(0), up], None)
    case 10 => State(true, Some(1), both, [Worker(0, Leaving), Worker(1, Warmup)], 2, [up, Joining(0), up], None)
    case 11 => State(true, Some(1), both, [Worker(0, Exited), Worker(1, Warmup)], 1, [up, Joining(0), up], None)
    case 12 => State(true, Some(1), both, [Worker(0, Exited), Worker(1, Warmup)], 1, [up, Waiting(0), up], None)
  }

  lemma FirstSteps(k: nat)
    requires k < 6
    ensures Enabled(Restart(k), RESTART[k]) && Next(Restart(k), RESTART[k]) == Restart(k + 1)
  {
    var s, u := Restart(k), Restart(k + 1);
    match k
    case 0 => assert s.callers + [Starting] == u.callers;
    case 1 => assert s.callers[0 := Spawning(0)] == u.callers;
    case 2 => assert s.callers[0 := Returned(None)] == u.callers && s.workers[0 := Worker(0, Warmup)] == u.workers;
    case 3 => assert s.callers + [Stopping] == u.callers;
    case 4 => assert s.callers[1 := Closing(0)] == u.callers;
    case 5 => assert s.callers[1 := Joining(0)] == u.callers && s.open[0 := false] == u.open;
  }

  lemma LaterSteps(k: nat)
    requires 6 <= k < 12
    ensures Enabled(Restart(k), RESTART[k]) && Next(Restart(k), RESTART[k]) == Restart(k + 1)
  {
    var s, u := Restart(k), Restart(k + 1);
    match k
    case 6 => assert s.callers + [Starting] == u.callers;
    case 7 => assert s.callers[2 := Spawning(1)] == u.callers;
    case 8 => assert s.callers[2 := Returned(None)] == u.callers && s.workers[1 := Worker(1, Warmup)] == u.workers;
    case 9 => assert s.workers[0 := Worker(0, Leaving)] == u.workers;
    case 10 => assert s.workers[0 := Worker(0, Exited)] == u.workers;
    case 11 => assert s.callers[1 := Waiting(0)] == u.callers;
  }

  lemma NotYet()
    ensures Exec(New(), RESTART[..0]) == Restart(0)
  {
  }

  lemma {:induction false} Restarts(k: nat)
    requires k <= 12
    ensures Exec(New(), RESTART[..k]) == Restart(k)
  {
    hide Next, Enabled, Restart, New, Exec;
    if k == 0 {
      NotYet();
    } else {
      Restarts(k - 1);
      if k <= 6 { FirstSteps(k - 1); } else { LaterSteps(k - 1); }
      ExecSnoc(New(), RESTART[..k - 1], RESTART[k - 1]);
      assert RESTART[..k] == RESTART[..k - 1] + [RESTART[k - 1]];
    }
  }

  // A reachable run after which a Stop whose worker has exited waits for ever,
  // unless somebody calls Stop once more.
  lemma StopOutlivesItsWorker(ls: seq<Label>)
    requires forall l | l in ls :: l != CallStop
    ensures var t := Exec(New(), RESTART); HasExited(t, 0) && 1 < |t.callers| && t.callers[1] == Waiting(0)
    ensures var t := Exec(New(), RESTART + ls); 1 < |t.callers| && t.callers[1] == Waiting(0)
  {
    Restarts(12);
    assert RESTART[..12] == RESTART;
    Safe(RESTART);
    hide Inv;
    StopHangs(Exec(New(), RESTART), ls, 1);
    ExecAll(New(), RESTART, ls);
  }

  // --- Without new Starts every Stop returns --------------------------------------

  // Nothing is started and nobody is about to start it.
  ghost predicate Calm(s: State) {
    !s.started && forall c | 0 <= c < |s.callers| :: !s.callers[c].Starting?
  }

  function CallerWork(c: Caller): nat {
    match c
    case Closing(_) => 4
    case Joining(_) => 3
    case Waiting(_) => 2
    case Returned(_) => 0
    case _ => 1
  }

  function WorkerWork(w: Worker): nat {
    match w.phase
    case Counted => 4
    case Sweeping => 4
    case Leaving => 1
    case Exited => 0
    case _ => 3
  }

  function CallersWork(cs: seq<Caller>): nat {
    if cs == [] then 0 else CallersWork(cs[..|cs| - 1]) + CallerWork(cs[|cs| - 1])
  }

  function WorkersWork(ws: seq<Worker>): nat {
    if ws == [] then 0 else WorkersWork(ws[..|ws| - 1]) + WorkerWork(ws[|ws| - 1])
  }

  function Work(s: State): nat {
    CallersWork(s.callers) + WorkersWork(s.workers)
  }

  lemma {:induction false} CallersPut(cs: seq<Caller>, i: nat, c: Caller)
    requires i < |cs|
    ensures CallersWork(cs[i := c]) == CallersWork(cs) - CallerWork(cs[i]) + CallerWork(c)
    decreases |cs|
  {
    var n := |cs| - 1;
    if i == n {
      assert cs[i := c][..n] == cs[..n];
    } else {
      CallersPut(cs[..n], i, c);
      assert cs[i := c][..n] == cs[..n][i := c];
    }
  }

  lemma {:induction false} WorkersPut(ws: seq<Worker>, i: nat, w: Worker)
    requires i < |ws|
    ensures WorkersWork(ws[i := w]) == WorkersWork(ws) - WorkerWork(ws[i]) + WorkerWork(w)
    decreases |ws|
  {
    var n := |ws| - 1;
    if i == n {
      assert ws[i := w][..n] == ws[..n];
    } else {
      WorkersPut(ws[..n], i, w);
      assert ws[i := w][..n] == ws[..n][i := w];
    }
  }

  lemma {:induction false} CallersLess(cs: seq<Caller>, ds: seq<Caller>)
    requires |cs| == |ds| && forall i | 0 <= i < |cs| :: CallerWork(ds[i]) <= CallerWork(cs[i])
    ensures CallersWork(ds) <= CallersWork(cs)
    decreases |cs|
  {
    if cs != [] {
      var n := |cs| - 1;
      CallersLess(cs[..n], ds[..n]);
    }
  }

  // The steps that bring the callers home: everything but new calls and ticks.
  predicate Homeward(l: Label) {
    !l.CallStart? && !l.CallStop? && !l.Timer?
  }

  lemma CallerHome(s: State, l: Label)
    requires Calm(s) && CallersOk(s) && Enabled(s, l) && (l.Enter? || l.Close? || l.Join? || l.Return?)
    requires Next(s, l).panic == None
    ensures var c, t := Subject(s, l), Next(s, l);
            && c < |s.callers| == |t.callers| && t.callers == s.callers[c := t.callers[c]] && t.workers == s.workers
            && CallerWork(t.callers[c]) < CallerWork(s.callers[c]) && Calm(t)
  {
  }

  lemma WorkerHome(s: State, l: Label)
    requires Calm(s) && Enabled(s, l) && (l.Swept? || l.SeeStop? || l.Leave?)
    ensures Calm(Next(s, l)) && Work(Next(s, l)) < Work(s)
  {
    var t := Next(s, l);
    var w := match l case Swept(v) => v case SeeStop(v) => v case Leave(v) => v;
    hide CallersWork, WorkersWork;
    WorkersPut(s.workers, w, t.workers[w]);
    CallersLess(s.callers, t.callers);
  }

  lemma SpawnHome(s: State, c: nat)
    requires Calm(s) && CallersOk(s) && Enabled(s, Spawn(c))
    ensures Calm(Next(s, Spawn(c))) && Work(Next(s, Spawn(c))) < Work(s)
  {
    assert CallerOk(s, s.callers[c]);
    var w, t := s.callers[c].worker, Next(s, Spawn(c));
    hide CallersWork, WorkersWork, CallersOk;
    CallersPut(s.callers, c, t.callers[c]);
    WorkersPut(s.workers, w, t.workers[w]);
  }

  lemma StepHome(s: State, l: Label)
    requires Calm(s) && CallersOk(s) && Enabled(s, l) && Homeward(l) && Next(s, l).panic == None
    ensures Calm(Next(s, l)) && Work(Next(s, l)) < Work(s)
  {
    hide Calm, CallersOk, Enabled, Next, CallersWork, WorkersWork, CallerWork;
    if l.Spawn? {
      SpawnHome(s, l.s);
    } else if l.Swept? || l.SeeStop? || l.Leave? {
      WorkerHome(s, l);
    } else {
      CallerHome(s, l);
      CallersPut(s.callers, Subject(s, l), Next(s, l).callers[Subject(s, l)]);
    }
  }

  // While a caller has not returned, a worker still running or, when there is none,
  // that caller can move, and without a panic.
  lemma SomeoneMoves(s: State, c: nat) returns (l: Label)
    requires Inv(s) && Calm(s) && s.panic == None && c < |s.callers| && !s.callers[c].Returned?
    ensures Homeward(l) && Enabled(s, l) && Next(s, l).panic == None
  {
    NoneAlive(s.workers);
    if w: nat :| w < |s.workers| && !s.workers[w].phase.Exited? {
      l := WorkerMoves(s, w);
      return;
    }
    assert CallerOk(s, s.callers[c]);
    match s.callers[c]
    case Spawning(_) => l := Spawn(c);
    case Stopping => l := Enter(c);
    case Closing(_) => l := Close(c);
    case Joining(_) => l := Join(c);
    case _ => l := Return(c);
  }

  lemma WorkerMoves(s: State, w: nat) returns (l: Label)
    requires Inv(s) && Calm(s) && s.panic == None && w < |s.workers| && !s.workers[w].phase.Exited?
    ensures Homeward(l) && Enabled(s, l) && Next(s, l).panic == None
  {
    assert WorkerOk(s, w) && Handled(s, w);
    var phase := s.workers[w].phase;
    if phase.Counted? {
      var c :| 0 <= c < |s.callers| && s.callers[c] == Spawning(w);
      l := Spawn(c);
    } else if phase.Sweeping? {
      l := Swept(w);
    } else if phase.Leaving? {
      l := Leave(w);
    } else if s.open[w] {
      var c :| 0 <= c < |s.callers| && s.callers[c] == Closing(w);
      assert CallerOk(s, s.callers[c]);
      l := Close(c);
    } else {
      l := SeeStop(w);
    }
  }

  // From any reachable state in which the loop is stopped and no Start is on its
  // way, callers and workers alone bring every Stop back, without a panic.
  lemma {:induction false} AllReturn(s: State) returns (ls: seq<Label>)
    requires Inv(s) && Calm(s) && s.panic == None
    ensures |ls| <= Work(s) && forall k | 0 <= k < |ls| :: Homeward(ls[k])
    ensures Exec(s, ls).panic == None
    ensures forall c | 0 <= c < |Exec(s, ls).callers| :: Exec(s, ls).callers[c].Returned?
    decreases Work(s)
  {
    hide *;
    if c: nat :| c < |s.callers| && !s.callers[c].Returned? {
      var l := SomeoneMoves(s, c);
      Split(s);
      StepHome(s, l);
      StepInv(s, l);
      var rest := AllReturn(Next(s, l));
      ls := [l] + rest;
      ExecAll(s, [l], rest);
      ExecOne(s, l);
    } else {
      ls := [];
      ExecNone(s);
    }
  }

  lemma Split(s: State)
    requires Inv(s)
    ensures CallersOk(s)
  {
  }

  lemma ExecNone(s: State)
    ensures Exec(s, []) == s
  {
  }

  lemma ExecOne(s: State, l: Label)
    ensures Exec(s, [l]) == if Enabled(s, l) then Next(s, l) else s
  {
    ExecSnoc(s, [], l);
    assert [] + [l] == [l];
  }
}
