// Start and Stop of the activity retention loop, called from any number of
// goroutines at once.  What a mutex protects is one step; spawning, closing,
// waiting and the loop's own selects are steps of their own.
module RetentionLoop {
  import opened Options

  // A loop goroutine: counted by the wait group but not spawned yet, in one of its
  // selects, sweeping, about to leave, or gone.
  datatype Phase = Counted | Warmup | Sweeping | Ticking | Leaving | Exited

  datatype Worker = Worker(channel: nat, phase: Phase)

  // A caller of Start or Stop.  A Stop that finds the counter at zero does not wait; one
  // that waits is woken first and returns from its Wait in a step of its own.
  datatype Caller =
    | Starting
    | Spawning(worker: nat)
    | Stopping
    | Closing(channel: nat)
    | Joining(closed: nat)
    | Waiting(left: nat)
    | Woken(woken: nat)
    | Returned(stopped: Option<nat>)

  // What brings the process down: closing a closed channel, or a released Wait that
  // finds the wait group in use again.
  datatype Panic = ClosedTwice | WaitReused

  // `open` holds a flag per channel made, false once closed; `count` is the wait
  // group's counter.
  datatype State = State(started: bool, stopCh: Option<nat>, open: seq<bool>, workers: seq<Worker>,
                         count: int, callers: seq<Caller>, panic: Option<Panic>)

  datatype Label =
    | CallStart
    | CallStop
    | Enter(c: nat)
    | Spawn(s: nat)
    | Close(k: nat)
    | Join(j: nat)
    | Return(r: nat)
    | Timer(w: nat)
    | Swept(v: nat)
    | SeeStop(u: nat)
    | Leave(x: nat)

  // As newActivityRetentionLoop makes it.
  function New(): State {
    State(false, Some(0), [true], [], 0, [], None)
  }

  function SetCaller(s: State, c: nat, to: Caller): State
    requires c < |s.callers|
  {
    s.(callers := s.callers[c := to])
  }

  function SetPhase(s: State, w: nat, to: Phase): State
    requires w < |s.workers|
  {
    s.(workers := s.workers[w := s.workers[w].(phase := to)])
  }

  // Start, under the mutex.
  function Begin(s: State, c: nat): State
    requires c < |s.callers|
  {
    if s.started then SetCaller(s, c, Returned(None))
    else
      var t := if s.stopCh.None? then s.(stopCh := Some(|s.open|), open := s.open + [true]) else s;
      var ch := if s.stopCh.None? then |s.open| else s.stopCh.value;
      SetCaller(t, c, Spawning(|s.workers|))
        .(started := true, count := s.count + 1, workers := s.workers + [Worker(ch, Counted)])
  }

  // Stop, under the mutex.
  function Detach(s: State, c: nat): State
    requires c < |s.callers|
  {
    if !s.started then SetCaller(s, c, Returned(None))
    else SetCaller(s, c, Closing(if s.stopCh.Some? then s.stopCh.value else 0)).(stopCh := None, started := false)
  }

  // The wait group's Done: at zero it wakes everyone waiting.
  function Wake(c: Caller): Caller {
    if c.Waiting? then Woken(c.left) else c
  }

  function Done(s: State, w: nat): State
    requires w < |s.workers|
  {
    var t := SetPhase(s, w, Exited).(count := s.count - 1);
    if t.count == 0
    then t.(callers := seq(|s.callers|, i requires 0 <= i < |s.callers| => Wake(s.callers[i])))
    else t
  }

  // Nothing moves once the process has panicked.
  predicate Enabled(s: State, l: Label) {
    s.panic == None &&
    match l
    case CallStart => true
    case CallStop => true
    case Enter(c) => c < |s.callers| && (s.callers[c].Starting? || s.callers[c].Stopping?)
    case Spawn(c) => c < |s.callers| && s.callers[c].Spawning? && s.callers[c].worker < |s.workers|
    case Close(c) => c < |s.callers| && s.callers[c].Closing? && s.callers[c].channel < |s.open|
    case Join(c) => c < |s.callers| && s.callers[c].Joining?
    case Return(c) => c < |s.callers| && s.callers[c].Woken?
    case Timer(w) => w < |s.workers| && (s.workers[w].phase.Warmup? || s.workers[w].phase.Ticking?)
    case Swept(w) => w < |s.workers| && s.workers[w].phase.Sweeping?
    case SeeStop(w) =>
      && w < |s.workers| && (s.workers[w].phase.Warmup? || s.workers[w].phase.Ticking?)
      && s.workers[w].channel < |s.open| && !s.open[s.workers[w].channel]
    case Leave(w) => w < |s.workers| && s.workers[w].phase.Leaving?
  }

  function Next(s: State, l: Label): State
    requires Enabled(s, l)
  {
    match l
    case CallStart => s.(callers := s.callers + [Starting])
    case CallStop => s.(callers := s.callers + [Stopping])
    case Enter(c) => if s.callers[c].Starting? then Begin(s, c) else Detach(s, c)
    case Spawn(c) => SetCaller(SetPhase(s, s.callers[c].worker, Warmup), c, Returned(None))
    case Close(c) =>
      var ch := s.callers[c].channel;
      SetCaller(s, c, Joining(ch))
        .(open := s.open[ch := false], panic := if s.open[ch] then None else Some(ClosedTwice))
    case Join(c) =>
      var ch := s.callers[c].closed;
      SetCaller(s, c, if s.count == 0 then Returned(Some(ch)) else Waiting(ch))
    case Return(c) =>
      if s.count != 0 then s.(panic := Some(WaitReused)) else SetCaller(s, c, Returned(Some(s.callers[c].woken)))
    case Timer(w) => SetPhase(s, w, Sweeping)
    case Swept(w) => SetPhase(s, w, Ticking)
    case SeeStop(w) => SetPhase(s, w, Leaving)
    case Leave(w) => Done(s, w)
  }

  function Exec(s: State, ls: seq<Label>): State {
    if ls == [] then s else
      var t := Exec(s, ls[..|ls| - 1]);
      var l := ls[|ls| - 1];
      if Enabled(t, l) then Next(t, l) else t
  }
}
