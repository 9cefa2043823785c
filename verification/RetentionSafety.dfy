// What every interleaving of Start, Stop and the loop goroutines keeps, and when a
// Stop returns.
module RetentionSafety {
  import opened Options
  import opened RetentionLoop

  // The goroutines the wait group counts.
  function Alive(ws: seq<Worker>): nat {
    if ws == [] then 0 else Alive(ws[..|ws| - 1]) + if ws[|ws| - 1].phase.Exited? then 0 else 1
  }

  lemma {:induction false} AlivePut(ws: seq<Worker>, i: nat, w: Worker)
    requires i < |ws|
    ensures Alive(ws[i := w]) == Alive(ws) - (if ws[i].phase.Exited? then 0 else 1) + if w.phase.Exited? then 0 else 1
    decreases |ws|
  {
    var n := |ws| - 1;
    if i == n {
      assert ws[i := w][..n] == ws[..n];
    } else {
      AlivePut(ws[..n], i, w);
      assert ws[i := w][..n] == ws[..n][i := w];
    }
  }

  lemma AliveSnoc(ws: seq<Worker>, w: Worker)
    ensures Alive(ws + [w]) == Alive(ws) + if w.phase.Exited? then 0 else 1
  {
    assert (ws + [w])[..|ws|] == ws;
  }

  lemma {:induction false} NoneAlive(ws: seq<Worker>)
    ensures Alive(ws) == 0 <==> forall i | 0 <= i < |ws| :: ws[i].phase.Exited?
    decreases |ws|
  {
    if ws != [] {
      var n := |ws| - 1;
      NoneAlive(ws[..n]);
      assert forall i | 0 <= i < n :: ws[..n][i] == ws[i];
    }
  }

  // Each Start that launches makes or takes a channel of its own: the last one is
  // the field's while the loop is started, and only a fresh loop keeps an unused one.
  ghost predicate FieldsOk(s: State) {
    && s.panic != Some(ClosedTwice)
    && |s.open| == (if s.workers == [] then 1 else |s.workers|)
    && (s.started ==> s.workers != [])
    && s.stopCh == (if s.started then Some(|s.workers| - 1) else if s.workers == [] then Some(0) else None)
    && (s.stopCh.Some? ==> s.open[s.stopCh.value])
  }

  // No worker leaves before its own channel is closed.
  predicate WorkerOk(s: State, w: nat)
    requires w < |s.workers|
  {
    && s.workers[w].channel == w < |s.open|
    && (s.workers[w].phase.Leaving? || s.workers[w].phase.Exited? ==> !s.open[w])
  }

  ghost predicate WorkersOk(s: State) {
    forall w | 0 <= w < |s.workers| :: WorkerOk(s, w)
  }

  // The channel a Stop has taken.
  function Taken(c: Caller): Option<nat> {
    match c
    case Closing(ch) => Some(ch)
    case Joining(ch) => Some(ch)
    case Waiting(ch) => Some(ch)
    case Woken(ch) => Some(ch)
    case Returned(ch) => ch
    case _ => None
  }

  predicate HasExited(s: State, w: nat) {
    w < |s.workers| && s.workers[w].phase.Exited?
  }

  predicate CallerOk(s: State, c: Caller) {
    && (Taken(c).Some? ==>
          && Taken(c).value < |s.workers| && Taken(c).value < |s.open| && s.stopCh != Taken(c)
          && (s.open[Taken(c).value] <==> c.Closing?))
    && (c.Waiting? ==> s.count != 0)
    && (c.Woken? ==> HasExited(s, c.woken))
    && (c.Returned? && c.stopped.Some? ==> HasExited(s, c.stopped.value))
    && (c.Spawning? ==> c.worker < |s.workers| && s.workers[c.worker].phase.Counted?)
  }

  ghost predicate CallersOk(s: State) {
    forall c | 0 <= c < |s.callers| :: CallerOk(s, s.callers[c])
  }

  // No two callers of Stop work on one channel, nor two of Start on one worker.
  predicate Rivals(b: Caller, c: Caller) {
    (Taken(b).Some? && Taken(b) == Taken(c)) || (b.Spawning? && b == c)
  }

  ghost predicate NoRivals(s: State) {
    forall b, c | 0 <= b < c < |s.callers| :: !Rivals(s.callers[b], s.callers[c])
  }

  // Every channel left behind is closed or about to be, and every worker counted
  // is about to be spawned.
  ghost predicate Handled(s: State, w: nat)
    requires w < |s.workers| && w < |s.open|
  {
    && (s.stopCh != Some(w) && s.open[w] ==> Closing(w) in s.callers)
    && (s.workers[w].phase.Counted? ==> Spawning(w) in s.callers)
  }

  ghost predicate AllHandled(s: State) {
    forall w | 0 <= w < |s.workers| && w < |s.open| :: Handled(s, w)
  }

  ghost predicate Inv(s: State) {
    FieldsOk(s) && WorkersOk(s) && CallersOk(s) && NoRivals(s) && AllHandled(s) && s.count == Alive(s.workers)
  }

  lemma NewInv()
    ensures Inv(New())
  {
  }

  lemma StepFields(s: State, l: Label)
    requires FieldsOk(s) && CallersOk(s) && Enabled(s, l)
    ensures FieldsOk(Next(s, l))
  {
  }

  lemma StepWorkers(s: State, l: Label)
    requires FieldsOk(s) && WorkersOk(s) && CallersOk(s) && Enabled(s, l)
    ensures WorkersOk(Next(s, l))
  {
    var t := Next(s, l);
    forall w | 0 <= w < |t.workers| ensures WorkerOk(t, w) {
      if w < |s.workers| {
        assert WorkerOk(s, w);
      }
    }
  }

  lemma StepCount(s: State, l: Label)
    requires s.count == Alive(s.workers) && CallersOk(s) && Enabled(s, l)
    ensures Next(s, l).count == Alive(Next(s, l).workers)
  {
    var t := Next(s, l);
    AliveSnoc(s.workers, Worker(if s.stopCh.None? then |s.open| else s.stopCh.value, Counted));
    match l
    case Spawn(c) => AlivePut(s.workers, s.callers[c].worker, t.workers[s.callers[c].worker]);
    case Timer(w) => AlivePut(s.workers, w, t.workers[w]);
    case Swept(w) => AlivePut(s.workers, w, t.workers[w]);
    case SeeStop(w) => AlivePut(s.workers, w, t.workers[w]);
    case Leave(w) => AlivePut(s.workers, w, t.workers[w]);
    case _ =>
  }

  // The caller a step is about, if any.
  function Subject(s: State, l: Label): nat {
    match l
    case Enter(c) => c
    case Spawn(c) => c
    case Close(c) => c
    case Join(c) => c
    case Return(c) => c
    case _ => |s.callers|
  }

  lemma EnterOther(s: State, c: nat, j: nat)
    requires FieldsOk(s) && Enabled(s, Enter(c)) && s.count >= 0 && j < |s.callers| && CallerOk(s, s.callers[j])
    ensures CallerOk(Next(s, Enter(c)), s.callers[j])
  {
  }

  lemma UnlockedOther(s: State, l: Label, j: nat)
    requires Enabled(s, l) && !l.Leave? && !l.Enter? && j < |s.callers| && j != Subject(s, l)
    requires CallerOk(s, s.callers[j]) && (Subject(s, l) < |s.callers| ==> CallerOk(s, s.callers[Subject(s, l)]))
    requires l.Close? || l.Spawn? ==> !Rivals(s.callers[j], s.callers[Subject(s, l)])
    ensures CallerOk(Next(s, l), s.callers[j])
  {
  }

  lemma OtherCaller(s: State, l: Label, j: nat)
    requires FieldsOk(s) && CallersOk(s) && NoRivals(s) && Enabled(s, l) && !l.Leave? && s.count >= 0
    requires j < |s.callers| && j != Subject(s, l)
    ensures var t := Next(s, l); j < |t.callers| && t.callers[j] == s.callers[j] && CallerOk(t, t.callers[j])
  {
    var c := Subject(s, l);
    if c < |s.callers| {
      assert !Rivals(s.callers[if j < c then j else c], s.callers[if j < c then c else j]);
    }
    hide FieldsOk, CallerOk, NoRivals, Taken;
    if l.Enter? {
      EnterOther(s, c, j);
    } else {
      UnlockedOther(s, l, j);
    }
  }

  lemma EnteredCaller(s: State, c: nat)
    requires FieldsOk(s) && WorkersOk(s) && Enabled(s, Enter(c))
    ensures CallerOk(Next(s, Enter(c)), Next(s, Enter(c)).callers[c])
  {
    hide Alive;
    if s.workers != [] {
      assert WorkerOk(s, |s.workers| - 1);
    }
  }

  // A Stop that finds the counter at zero, or has been woken, is after its worker.
  lemma JoinedCaller(s: State, l: Label, c: nat)
    requires WorkersOk(s) && Enabled(s, l) && (l.Join? || l.Return?) && c == Subject(s, l)
    requires s.count == Alive(s.workers) && c < |s.callers| && CallerOk(s, s.callers[c])
    ensures CallerOk(Next(s, l), Next(s, l).callers[c])
  {
    NoneAlive(s.workers);
  }

  lemma MovedCaller(s: State, l: Label, c: nat)
    requires Enabled(s, l) && (l.Spawn? || l.Close?) && c == Subject(s, l)
    requires c < |s.callers| && CallerOk(s, s.callers[c])
    ensures CallerOk(Next(s, l), Next(s, l).callers[c])
  {
  }

  lemma NewCaller(s: State, l: Label, c: nat)
    requires FieldsOk(s) && WorkersOk(s) && CallersOk(s) && Enabled(s, l) && !l.Leave? && s.count == Alive(s.workers)
    requires c == Subject(s, l) && c < |Next(s, l).callers|
    ensures CallerOk(Next(s, l), Next(s, l).callers[c])
  {
    assert c < |s.callers| ==> CallerOk(s, s.callers[c]);
    match l
    case Enter(_) => EnteredCaller(s, c);
    case Join(_) => JoinedCaller(s, l, c);
    case Return(_) => JoinedCaller(s, l, c);
    case Spawn(_) => MovedCaller(s, l, c);
    case Close(_) => MovedCaller(s, l, c);
    case _ => hide FieldsOk, WorkersOk, CallersOk, Alive;
  }

  lemma LeaveCallers(s: State, w: nat)
    requires FieldsOk(s) && WorkersOk(s) && CallersOk(s) && Enabled(s, Leave(w)) && s.count == Alive(s.workers)
    ensures CallersOk(Next(s, Leave(w)))
  {
    var t := Next(s, Leave(w));
    AlivePut(s.workers, w, t.workers[w]);
    NoneAlive(t.workers);
    forall j | 0 <= j < |t.callers| ensures CallerOk(t, t.callers[j]) {
      assert CallerOk(s, s.callers[j]);
    }
  }

  lemma StepCallers(s: State, l: Label)
    requires Inv(s) && Enabled(s, l)
    ensures CallersOk(Next(s, l))
  {
    hide CallerOk, FieldsOk, WorkersOk, NoRivals, AllHandled, Alive;
    var t := Next(s, l);
    if l.Leave? {
      LeaveCallers(s, l.x);
    } else {
      forall j | 0 <= j < |t.callers| ensures CallerOk(t, t.callers[j]) {
        if j < |s.callers| && j != Subject(s, l) {
          OtherCaller(s, l, j);
        } else {
          NewCaller(s, l, j);
        }
      }
    }
  }

  // A caller takes a channel or a worker only when it enters, and then a fresh one.
  lemma StepRivals(s: State, l: Label)
    requires Inv(s) && Enabled(s, l)
    ensures NoRivals(Next(s, l))
  {
    hide AllHandled, Alive, Rivals;
    var t := Next(s, l);
    forall b, c | 0 <= b < c < |t.callers| ensures !Rivals(t.callers[b], t.callers[c]) {
      if c < |s.callers| {
        assert !Rivals(s.callers[b], s.callers[c]);
        RivalsStep(s, l, b, c);
      } else {
        assert !Rivals(t.callers[b], t.callers[c]) by { NoneTaken(t.callers[b], t.callers[c]); }
      }
    }
  }

  lemma NoneTaken(b: Caller, c: Caller)
    requires c.Starting? || c.Stopping?
    ensures !Rivals(b, c)
  {
  }

  lemma RivalsStep(s: State, l: Label, b: nat, c: nat)
    requires FieldsOk(s) && CallersOk(s) && b < c < |s.callers| && !Rivals(s.callers[b], s.callers[c]) && Enabled(s, l)
    ensures var t := Next(s, l); c < |t.callers| && !Rivals(t.callers[b], t.callers[c])
  {
    assert CallerOk(s, s.callers[b]) && CallerOk(s, s.callers[c]);
    hide FieldsOk, CallersOk, CallerOk, Next, Taken;
    if l.Enter? {
      EnterRivals(s, l.c, b, c);
    } else {
      Shrinks(s, l, b);
      Shrinks(s, l, c);
    }
  }

  // Outside the mutex a caller keeps what it took or lets it go.
  lemma Shrinks(s: State, l: Label, j: nat)
    requires Enabled(s, l) && !l.Enter? && j < |s.callers|
    ensures var t := Next(s, l);
            && |t.callers| >= |s.callers| && Taken(t.callers[j]) in {Taken(s.callers[j]), None}
            && (t.callers[j].Spawning? ==> t.callers[j] == s.callers[j])
  {
  }

  lemma EnterRivals(s: State, e: nat, b: nat, c: nat)
    requires FieldsOk(s) && b < c < |s.callers| && !Rivals(s.callers[b], s.callers[c]) && Enabled(s, Enter(e))
    requires CallerOk(s, s.callers[b]) && CallerOk(s, s.callers[c])
    ensures var t := Next(s, Enter(e)); c < |t.callers| && !Rivals(t.callers[b], t.callers[c])
  {
  }

  // Members of the list of callers stay in it unless the step is theirs.
  lemma Stays(s: State, l: Label, c: Caller)
    requires Enabled(s, l) && c in s.callers && !c.Waiting?
    requires Subject(s, l) < |s.callers| ==> s.callers[Subject(s, l)] != c
    ensures c in Next(s, l).callers
  {
    var t := Next(s, l);
    var j :| 0 <= j < |s.callers| && s.callers[j] == c;
    assert t.callers[j] == c;
  }

  lemma StepHandled(s: State, l: Label)
    requires Inv(s) && Enabled(s, l)
    ensures AllHandled(Next(s, l))
  {
    hide Alive, NoRivals, WorkersOk;
    var t := Next(s, l);
    if Subject(s, l) < |s.callers| {
      assert CallerOk(s, s.callers[Subject(s, l)]) && t.callers[Subject(s, l)] in t.callers;
    }
    forall w | 0 <= w < |t.workers| && w < |t.open| ensures Handled(t, w) {
      if w < |s.workers| {
        assert Handled(s, w);
        HandledStep(s, l, w);
      }
    }
  }

  lemma HandledStep(s: State, l: Label, w: nat)
    requires FieldsOk(s) && CallersOk(s) && Enabled(s, l) && w < |s.workers| && w < |s.open| && Handled(s, w)
    ensures var t := Next(s, l); w < |t.workers| && w < |t.open| && Handled(t, w)
  {
    var c, t := Subject(s, l), Next(s, l);
    if c < |s.callers| {
      assert CallerOk(s, s.callers[c]) && t.callers[c] in t.callers;
    }
    if Closing(w) in s.callers && !(c < |s.callers| && s.callers[c] == Closing(w)) {
      Stays(s, l, Closing(w));
    }
    if Spawning(w) in s.callers && !(c < |s.callers| && s.callers[c] == Spawning(w)) {
      Stays(s, l, Spawning(w));
    }
  }

  lemma StepInv(s: State, l: Label)
    requires Inv(s) && Enabled(s, l)
    ensures Inv(Next(s, l))
  {
    hide Next, Enabled, FieldsOk, WorkersOk, CallersOk, NoRivals, AllHandled, Alive;
    StepFields(s, l);
    StepWorkers(s, l);
    StepCount(s, l);
    StepCallers(s, l);
    StepRivals(s, l);
    StepHandled(s, l);
  }

  lemma {:induction false} Safe(ls: seq<Label>)
    ensures Inv(Exec(New(), ls))
    decreases |ls|
  {
    if ls == [] {
      NewInv();
    } else {
      hide Inv, Next, Enabled;
      Safe(ls[..|ls| - 1]);
      var t := Exec(New(), ls[..|ls| - 1]);
      if Enabled(t, ls[|ls| - 1]) {
        StepInv(t, ls[|ls| - 1]);
      }
    }
  }
}
