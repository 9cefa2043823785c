// The retention loop object: its fields, the wait group, and its methods cut where the
// mutex is released.  `run` is the schedule that led here, so that whatever holds of
// every schedule holds of the object.
module RetentionService {
  import opened Options
  import opened RetentionLoop
  import opened RetentionSafety

  class Loop {
    var started: bool
    var stopCh: Option<nat>
    var open: seq<bool>
    var workers: seq<Worker>
    var count: int
    var callers: seq<Caller>
    var panic: Option<Panic>
    ghost var run: seq<Label>

    ghost function Value(): State
      reads this
    {
      State(started, stopCh, open, workers, count, callers, panic)
    }

    ghost predicate Valid()
      reads this
    {
      Value() == Exec(New(), run)
    }

    constructor ()
      ensures Valid() && !started && stopCh == Some(0) && open == [true] && workers == [] && callers == []
    {
      started, stopCh, open, workers, count, callers, panic := false, Some(0), [true], [], 0, [], None;
      run := [];
    }

    // The invariant of every schedule, in the object's own terms.
    lemma Promises()
      requires Valid()
      ensures Inv(Value())
      ensures started ==> stopCh.Some? && stopCh.value < |open| && open[stopCh.value]
      ensures count == Alive(workers) && panic != Some(ClosedTwice)
    {
      Safe(run);
    }

    // Start, under the mutex: afterwards the loop is started with an open channel.  A
    // stopped loop gets one more goroutine to spawn, on a channel no other goroutine has.
    method StartLocked(c: nat)
      requires Valid() && panic == None && c < |callers| && callers[c].Starting?
      modifies this
      ensures Valid() && panic == None && run == old(run) + [Enter(c)]
      ensures started && stopCh.Some? && stopCh.value < |open| && open[stopCh.value]
      ensures old(started) ==> workers == old(workers) && stopCh == old(stopCh) && callers[c] == Returned(None)
      ensures !old(started) ==>
                && workers == old(workers) + [Worker(stopCh.value, Counted)] && callers[c] == Spawning(|old(workers)|)
                && (forall w | 0 <= w < |old(workers)| :: old(workers)[w].channel != stopCh.value)
      ensures Alive(workers) == Alive(old(workers)) + if old(started) then 0 else 1
    {
      Promises();
      ghost var was := Value();
      Extended(was, Enter(c), run);
      StartedState(was, c);
      hide Inv, FieldsOk, WorkersOk, Alive, Exec;
      if started {
        callers := callers[c := Returned(None)];
      } else {
        if stopCh.None? {
          stopCh := Some(|open|);
          open := open + [true];
        }
        var ch := stopCh.value;
        started := true;
        count := count + 1;
        callers := callers[c := Spawning(|workers|)];
        workers := workers + [Worker(ch, Counted)];
      }
      run := run + [Enter(c)];
      assert Value() == Next(was, Enter(c));
    }

    // Stop, under the mutex: afterwards the loop is stopped.  If it was started the
    // caller has taken the channel, still open, that its goroutine listens on.
    method StopLocked(c: nat)
      requires Valid() && panic == None && c < |callers| && callers[c].Stopping?
      modifies this
      ensures Valid() && panic == None && run == old(run) + [Enter(c)]
      ensures !started && workers == old(workers) && open == old(open)
      ensures !old(started) ==> stopCh == old(stopCh) && callers[c] == Returned(None)
      ensures old(started) ==>
                && stopCh == None && callers[c].Closing? && callers[c].channel < |open| && open[callers[c].channel]
                && (exists w | 0 <= w < |workers| ::
                      workers[w].channel == callers[c].channel && !workers[w].phase.Exited?)
    {
      Promises();
      ghost var was := Value();
      Extended(was, Enter(c), run);
      Attached(was);
      if !started {
        callers := callers[c := Returned(None)];
      } else {
        var ch := stopCh.value;
        stopCh := None;
        started := false;
        callers := callers[c := Closing(ch)];
      }
      run := run + [Enter(c)];
      assert Value() == Next(was, Enter(c));
    }

    // After the mutex is released: the channel was open until now, whoever else is
    // starting or stopping the loop, so closing it cannot panic.
    method CloseChannel(c: nat)
      requires Valid() && panic == None && c < |callers| && callers[c].Closing?
      modifies this
      ensures Valid() && panic == None && run == old(run) + [Close(c)]
      ensures var ch := old(callers[c].channel);
              && ch < |old(open)| && old(open)[ch] && open == old(open)[ch := false] && callers[c] == Joining(ch)
      ensures started == old(started) && stopCh == old(stopCh) && workers == old(workers)
    {
      Promises();
      ghost var was := Value();
      assert CallerOk(was, was.callers[c]);
      Extended(was, Close(c), run);
      var ch := callers[c].channel;
      assert open[ch];
      open := open[ch := false];
      callers := callers[c := Joining(ch)];
      run := run + [Close(c)];
      assert Value() == Next(was, Close(c));
    }

    // Wait: returns at once exactly when no goroutine is left, and has to be woken
    // otherwise.  Either way the goroutine this Stop detached is gone when it is over.
    method Wait(c: nat)
      requires Valid() && panic == None && c < |callers| && callers[c].Joining?
      modifies this
      ensures Valid() && panic == None && run == old(run) + [Join(c)] && workers == old(workers)
      ensures callers[c].Waiting? || callers[c].Returned?
      ensures callers[c].Returned? <==> forall w | 0 <= w < |workers| :: workers[w].phase.Exited?
      ensures callers[c].Returned? ==> callers[c].stopped.Some? && HasExited(Value(), callers[c].stopped.value)
    {
      Promises();
      ghost var was := Value();
      Extended(was, Join(c), run);
      AtWait(was, c);
      var ch := callers[c].closed;
      callers := callers[c := if count == 0 then Returned(Some(ch)) else Waiting(ch)];
      run := run + [Join(c)];
      assert Value() == Next(was, Join(c));
    }

    // The return of a Wait that was woken: a panic exactly when some goroutine has been
    // launched since and has not exited, and otherwise the caller's own is gone.
    method ReturnFromWait(c: nat)
      requires Valid() && panic == None && c < |callers| && callers[c].Woken?
      modifies this
      ensures Valid() && run == old(run) + [Return(c)] && workers == old(workers)
      ensures panic.Some? <==> exists w | 0 <= w < |workers| :: !workers[w].phase.Exited?
      ensures panic == None ==>
                callers[c] == Returned(Some(old(callers[c].woken))) && HasExited(Value(), old(callers[c].woken))
      ensures panic.Some? ==> panic == Some(WaitReused) && callers == old(callers)
    {
      Promises();
      ghost var was := Value();
      Extended(was, Return(c), run);
      AtWait(was, c);
      if count != 0 {
        panic := Some(WaitReused);
      } else {
        callers := callers[c := Returned(Some(callers[c].woken))];
      }
      run := run + [Return(c)];
      assert Value() == Next(was, Return(c));
    }

    // A goroutine's last act: its channel has been closed, and if it was the last one
    // everyone waiting is woken, otherwise nobody is.
    method WaitGroupDone(w: nat)
      requires Valid() && panic == None && w < |workers| && workers[w].phase.Leaving?
      modifies this
      ensures Valid() && panic == None && run == old(run) + [Leave(w)]
      ensures workers == old(workers)[w := Worker(w, Exited)] && w < |open| && !open[w]
      ensures var last := forall v | 0 <= v < |workers| :: workers[v].phase.Exited?;
              |callers| == |old(callers)| && forall c | 0 <= c < |callers| ::
                callers[c] == if last && old(callers)[c].Waiting? then Woken(old(callers)[c].left) else old(callers)[c]
    {
      Promises();
      ghost var was := Value();
      assert WorkerOk(was, w);
      Extended(was, Leave(w), run);
      workers := workers[w := workers[w].(phase := Exited)];
      count := count - 1;
      WakeAll(was, w);
      run := run + [Leave(w)];
      assert Value() == Next(was, Leave(w));
      Promises();
      NoneAlive(workers);
    }

    method WakeAll(ghost was: State, w: nat)
      requires w < |was.workers| && callers == was.callers
      modifies this`callers
      ensures callers ==
              if count == 0 then seq(|was.callers|, i requires 0 <= i < |was.callers| => Wake(was.callers[i]))
              else was.callers
    {
      if count == 0 {
        for i := 0 to |callers|
          invariant |callers| == |was.callers|
          invariant forall j | 0 <= j < |callers| ::
                      callers[j] == if j < i then Wake(was.callers[j]) else was.callers[j]
          invariant unchanged(this`count)
        {
          if callers[i].Waiting? {
            callers := callers[i := Woken(callers[i].left)];
          }
        }
      }
    }
  }

  lemma Extended(s: State, l: Label, run: seq<Label>)
    requires s == Exec(New(), run) && Enabled(s, l)
    ensures Exec(New(), run + [l]) == Next(s, l)
  {
    assert (run + [l])[..|run|] == run;
  }

  // What a Stop at its Wait knows of the counter.
  lemma AtWait(s: State, c: nat)
    requires Inv(s) && c < |s.callers|
    ensures s.count == 0 <==> forall w | 0 <= w < |s.workers| :: s.workers[w].phase.Exited?
    ensures s.callers[c].Joining? ==> s.callers[c].closed < |s.workers|
    ensures s.callers[c].Woken? ==> HasExited(s, s.callers[c].woken)
  {
    NoneAlive(s.workers);
    assert CallerOk(s, s.callers[c]);
  }

  lemma StartedState(s: State, c: nat)
    requires Inv(s) && Enabled(s, Enter(c)) && s.callers[c].Starting?
    ensures var t := Next(s, Enter(c));
            && t.panic == None && t.started && t.stopCh.Some? && t.stopCh.value < |t.open| && t.open[t.stopCh.value]
            && Alive(t.workers) == Alive(s.workers) + (if s.started then 0 else 1)
            && (!s.started ==>
                  && t.workers == s.workers + [Worker(t.stopCh.value, Counted)] && |t.callers| == |s.callers|
                  && forall w | 0 <= w < |s.workers| :: s.workers[w].channel != t.stopCh.value)
  {
    hide *;
    StepInv(s, Enter(c));
    BeginMoves(s, c);
    Channels(Next(s, Enter(c)));
    AliveSnoc(s.workers, Worker(if s.stopCh.None? then |s.open| else s.stopCh.value, Counted));
    var t := Next(s, Enter(c));
    assert !s.started ==> t.workers[|s.workers|].channel == |s.workers|;
    assert forall w | 0 <= w < |s.workers| :: t.workers[w] == s.workers[w];
  }

  lemma BeginMoves(s: State, c: nat)
    requires Enabled(s, Enter(c)) && s.callers[c].Starting?
    ensures var t, ch := Next(s, Enter(c)), if s.stopCh.None? then |s.open| else s.stopCh.value;
            && t.panic == None && t.started && |t.callers| == |s.callers|
            && (s.started ==> t.workers == s.workers)
            && (!s.started ==> t.stopCh == Some(ch) && t.workers == s.workers + [Worker(ch, Counted)])
  {
  }

  // Each goroutine has a channel of its own, and a started loop's is open.
  lemma Channels(s: State)
    requires Inv(s)
    ensures forall w | 0 <= w < |s.workers| :: s.workers[w].channel == w
    ensures s.started ==> s.stopCh.Some? && s.stopCh.value < |s.open| && s.open[s.stopCh.value]
  {
    forall w | 0 <= w < |s.workers| ensures s.workers[w].channel == w {
      assert WorkerOk(s, w);
    }
  }

  // A started loop has a goroutine on its channel that has not exited.
  lemma Attached(s: State)
    requires Inv(s)
    ensures s.started ==> s.stopCh.Some? && s.stopCh.value < |s.workers| == |s.open|
                          && s.workers[s.stopCh.value].channel == s.stopCh.value
                          && !s.workers[s.stopCh.value].phase.Exited? && s.open[s.stopCh.value]
  {
    if s.started {
      assert WorkerOk(s, |s.workers| - 1);
    }
  }
}
