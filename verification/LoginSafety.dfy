// What every interleaving of the miniapp's callbacks keeps: one handshake at a
// time, shared by all its callers, at most one retry, each with the token that
// handshake got, and every promise settled once.
module LoginSafety {
  import opened Options
  import opened LoginFlight

  // The handshake in flight is the only one whose callers still wait.
  ghost predicate FlightOk(s: State) {
    && (s.flight.Some? ==> s.flight.value < |s.handshakes| && !s.handshakes[s.flight.value].Released?)
    && (forall h | 0 <= h < |s.handshakes| && !s.handshakes[h].Released? :: s.flight == Some(h))
  }

  predicate Is(s: State, h: nat, hs: Handshake) {
    h < |s.handshakes| && s.handshakes[h] == hs
  }

  // What a request's promise is settled with, given the last answer to it.
  function Verdict(a: Answer): Outcome {
    match a
    case Good => Fulfilled
    case Empty => Fulfilled
    case Refused => Unauthorized
    case OtherStatus => Errored
    case NoNetwork => Errored
  }

  // Where a call stands, and what it has sent and heard to get there.
  predicate CallOk(s: State, c: Call) {
    match c.stage
    case Sent => |c.sent| == 1 && c.heard == [] && c.kind != LoginOnly
    case Answered(good) => |c.sent| == 1 == |c.heard| && c.kind == Session && good == (c.heard[0] == Good)
    case Waiting(h) =>
      && h < |s.handshakes| && (c.kind == LoginOnly || c.kind == Plain(false))
      && |c.sent| == (if c.kind == LoginOnly then 0 else 1)
      && c.heard == (if c.kind == LoginOnly then [] else [Refused])
    case Resent(h) => c.kind == Plain(false) && Retried(s, c, h) && c.heard == [Refused]
    case Done(outcome, None) => |c.sent| == 1 && c.kind != LoginOnly && ByLastAnswer(c, outcome)
    case Done(outcome, Some(h)) =>
      && (Is(s, h, Released(true)) || Is(s, h, Released(false))) && c.kind != Session
      && (if c.kind == LoginOnly then
            c.sent == [] && c.heard == [] && outcome == if s.handshakes[h].ok then Fulfilled else Unauthorized
          else
            && c.kind == Plain(false) && ByLastAnswer(c, outcome)
            && (if s.handshakes[h].ok then Retried(s, c, h) else |c.sent| == 1 && outcome == Unauthorized))
  }

  // Sent a second time after a 401, with the token the handshake got.
  predicate Retried(s: State, c: Call, h: nat) {
    |c.sent| == 2 && c.heard != [] && c.heard[0] == Refused && Is(s, h, Released(true)) && c.sent[1] == Minted(h)
  }

  // Every send was answered, and the last answer decides.
  predicate ByLastAnswer(c: Call, outcome: Outcome) {
    && |c.heard| == |c.sent| > 0
    && outcome == (if c.kind == Session then if c.heard[0] == Good then Fulfilled else Errored
                   else Verdict(c.heard[|c.heard| - 1]))
  }

  ghost predicate CallsOk(s: State) {
    forall i | 0 <= i < |s.calls| :: CallOk(s, s.calls[i])
  }

  // A handshake's token is still the stored one when its callers resume.
  ghost predicate Fresh(s: State) {
    && (forall h | 0 <= h < |s.handshakes| && s.handshakes[h] == Settled(true) :: s.token == Minted(h))
    && (forall i | 0 <= i < |s.calls| && Resumable(s, s.calls[i]) && s.handshakes[s.calls[i].stage.h].ok ::
          s.token == Minted(s.calls[i].stage.h))
  }

  // The launch check's reaction never runs in between.
  ghost predicate Apart(s: State) {
    (exists i | 0 <= i < |s.calls| :: s.calls[i].stage.Answered?) ==>
      && (forall h | 0 <= h < |s.handshakes| :: !s.handshakes[h].Settled?)
      && (forall i | 0 <= i < |s.calls| :: !Resumable(s, s.calls[i]))
  }

  ghost predicate Inv(s: State) {
    FlightOk(s) && CallsOk(s) && Fresh(s) && Apart(s)
  }

  predicate Initial(s: State) {
    s.flight == None && s.handshakes == [] && s.calls == []
  }

  lemma CallKeeps(s: State, t: State, c: Call)
    requires CallOk(s, c) && |s.handshakes| <= |t.handshakes|
    requires forall h | 0 <= h < |s.handshakes| && s.handshakes[h].Released? :: t.handshakes[h] == s.handshakes[h]
    ensures CallOk(t, c)
  {
  }

  // The call a step is about, if it is about one.
  function Subject(s: State, l: Label): nat {
    match l
    case Reply(i, _, _) => i
    case Follow(i) => i
    case Resume(i) => i
    case _ => |s.calls|
  }

  lemma OthersKeep(s: State, l: Label)
    requires FlightOk(s) && CallsOk(s) && Enabled(s, l)
    ensures var t := Next(s, l);
            && |s.calls| <= |t.calls|
            && forall j | 0 <= j < |s.calls| && j != Subject(s, l) :: t.calls[j] == s.calls[j] && CallOk(t, t.calls[j])
    ensures var t := Next(s, l);
            |s.handshakes| <= |t.handshakes| &&
            forall h | 0 <= h < |s.handshakes| && s.handshakes[h].Released? :: t.handshakes[h] == s.handshakes[h]
  {
    hide CallOk, Quiet;
    var t := Next(s, l);
    forall j | 0 <= j < |s.calls| && j != Subject(s, l) ensures t.calls[j] == s.calls[j] && CallOk(t, t.calls[j]) {
      CallKeeps(s, t, s.calls[j]);
    }
  }

  // An answer or a launch check's reaction; a refused request joins a handshake.
  lemma RefusedOk(s: State, i: nat, appFound: bool)
    requires FlightOk(s) && i < |s.calls| && CallOk(s, s.calls[i])
    requires s.calls[i].stage.Sent? || s.calls[i].stage.Resent?
    requires s.calls[i].kind != Session
    ensures var t := OnReply(s, i, Refused, appFound); |t.calls| == |s.calls| && CallOk(t, t.calls[i])
  {
  }

  lemma AnsweredOk(s: State, i: nat, a: Answer, appFound: bool)
    requires i < |s.calls| && CallOk(s, s.calls[i]) && (s.calls[i].stage.Sent? || s.calls[i].stage.Resent?)
    requires s.calls[i].kind == Session || a != Refused
    ensures var t := OnReply(s, i, a, appFound); |t.calls| == |s.calls| && CallOk(t, t.calls[i])
  {
  }

  lemma FollowedOk(s: State, i: nat)
    requires FlightOk(s) && i < |s.calls| && CallOk(s, s.calls[i]) && s.calls[i].stage.Answered?
    ensures var t := OnFollow(s, i); |t.calls| == |s.calls| && CallOk(t, t.calls[i])
  {
  }

  lemma RepliedOk(s: State, l: Label)
    requires FlightOk(s) && CallsOk(s) && Enabled(s, l) && (l.Reply? || l.Follow?)
    ensures |Next(s, l).calls| == |s.calls| && CallOk(Next(s, l), Next(s, l).calls[Subject(s, l)])
  {
    hide Quiet, CallOk, FlightOk, OnReply, OnFollow;
    assert CallOk(s, s.calls[Subject(s, l)]);
    if l.Follow? {
      FollowedOk(s, l.session);
    } else if s.calls[l.call].kind == Session || l.answer != Refused {
      AnsweredOk(s, l.call, l.answer, l.appFound);
    } else {
      RefusedOk(s, l.call, l.appFound);
    }
  }

  lemma ResumedOk(s: State, l: Label)
    requires CallsOk(s) && Fresh(s) && Enabled(s, l) && l.Resume?
    ensures |Next(s, l).calls| == |s.calls| && CallOk(Next(s, l), Next(s, l).calls[Subject(s, l)])
  {
  }

  lemma StepCalls(s: State, l: Label)
    requires Inv(s) && Enabled(s, l)
    ensures CallsOk(Next(s, l))
  {
    hide Fresh, CallOk, Quiet, Resumable;
    OthersKeep(s, l);
    if l.Reply? || l.Follow? {
      RepliedOk(s, l);
    } else if l.Resume? {
      ResumedOk(s, l);
    } else {
      NewCallOk(s, l);
    }
  }

  lemma NewCallOk(s: State, l: Label)
    requires FlightOk(s) && Enabled(s, l) && Subject(s, l) >= |s.calls|
    ensures forall i | |s.calls| <= i < |Next(s, l).calls| :: CallOk(Next(s, l), Next(s, l).calls[i])
  {
  }

  lemma StepFlight(s: State, l: Label)
    requires FlightOk(s) && CallsOk(s) && Enabled(s, l)
    ensures FlightOk(Next(s, l))
  {
    hide CallOk, CallsOk, Quiet;
    match l
    case Reply(i, a, appFound) =>
    case _ =>
  }

  // A platform callback finds no reaction due, so no caller is about to resume.
  lemma ReplyFresh(s: State, l: Label)
    requires FlightOk(s) && CallsOk(s) && Enabled(s, l) && l.Reply?
    ensures Fresh(Next(s, l)) && Apart(Next(s, l))
  {
    var t := Next(s, l);
    var i := l.call;
    assert forall h | 0 <= h < |t.handshakes| :: !t.handshakes[h].Settled?;
    forall j | 0 <= j < |t.calls| ensures !Resumable(t, t.calls[j]) {
      assert CallOk(s, s.calls[j]);
      assert j != i ==> t.calls[j] == s.calls[j] && !Resumable(s, s.calls[j]);
    }
  }

  lemma ExchangeFresh(s: State, l: Label)
    requires CallsOk(s) && FlightOk(s) && Enabled(s, l) && (l.Code? || l.Exchange?)
    ensures Fresh(Next(s, l)) && Apart(Next(s, l))
  {
    var t := Next(s, l);
    var h := if l.Code? then l.asked else l.exchanged;
    assert t.calls == s.calls && t.handshakes == s.handshakes[h := t.handshakes[h]];
    forall j | 0 <= j < |t.calls| ensures !Resumable(t, t.calls[j]) && !t.calls[j].stage.Answered? {
      assert !Resumable(s, s.calls[j]) && !s.calls[j].stage.Answered?;
    }
  }

  lemma ReactionFresh(s: State, l: Label)
    requires Inv(s) && Enabled(s, l) && (l.Follow? || l.Release? || l.Resume?)
    ensures Fresh(Next(s, l)) && Apart(Next(s, l))
  {
    hide CallOk, CallsOk, Quiet;
    match l
    case Follow(i) =>
    case Release(h) =>
    case Resume(i) =>
  }

  lemma RequestFresh(s: State, l: Label)
    requires Inv(s) && (l.Launch? || l.Start? || l.Login?)
    ensures Fresh(Next(s, l)) && Apart(Next(s, l))
  {
    hide CallOk, CallsOk, Quiet;
  }

  lemma {:induction false} Safe(s: State, ls: seq<Label>)
    requires Initial(s)
    ensures Inv(Exec(s, ls))
    decreases |ls|
  {
    if ls != [] {
      var t := Exec(s, ls[..|ls| - 1]);
      Safe(s, ls[..|ls| - 1]);
      if Enabled(t, ls[|ls| - 1]) {
        hide Next, FlightOk, CallsOk, Fresh, Apart;
        StepCalls(t, ls[|ls| - 1]);
        StepFlight(t, ls[|ls| - 1]);
        match ls[|ls| - 1] {
          case Reply(_, _, _) => ReplyFresh(t, ls[|ls| - 1]);
          case Code(_, _) => ExchangeFresh(t, ls[|ls| - 1]);
          case Exchange(_, _) => ExchangeFresh(t, ls[|ls| - 1]);
          case Follow(_) => ReactionFresh(t, ls[|ls| - 1]);
          case Release(_) => ReactionFresh(t, ls[|ls| - 1]);
          case Resume(_) => ReactionFresh(t, ls[|ls| - 1]);
          case _ => RequestFresh(t, ls[|ls| - 1]);
        }
      }
    }
  }

  // --- What callers see -----------------------------------------------------------

  // At most one wx.login handshake is unfinished, and while one is, no step of any
  // kind begins another: a burst of 401s shares it, and neither the code exchange
  // nor a retry can nest one inside it.
  lemma SingleFlight(s: State, ls: seq<Label>, g: nat, h: nat)
    requires Initial(s)
    ensures var t := Exec(s, ls);
            g < |t.handshakes| && h < |t.handshakes| && !t.handshakes[g].Released? && !t.handshakes[h].Released? ==>
              g == h
    ensures var t := Exec(s, ls);
            h < |t.handshakes| && !t.handshakes[h].Released? ==>
              forall l | Enabled(t, l) :: |Next(t, l).handshakes| == |t.handshakes|
    ensures var t := Exec(s, ls);
            forall l | Enabled(t, l) && (l.Exchange? || l.Code? || l.Release? || l.Resume?) ::
              |Next(t, l).handshakes| == |t.handshakes|
  {
    Safe(s, ls);
    var t := Exec(s, ls);
    Parts(t);
    hide CallsOk, Fresh, Apart, Exec, Next, Enabled, Inv;
    forall l | Enabled(t, l) && (t.flight.Some? || l.Exchange? || l.Code? || l.Release? || l.Resume?)
      ensures |Next(t, l).handshakes| == |t.handshakes|
    {
      NoneBegun(t, l);
    }
  }

  lemma NoneBegun(s: State, l: Label)
    requires Enabled(s, l) && (s.flight.Some? || l.Exchange? || l.Code? || l.Release? || l.Resume?)
    ensures |Next(s, l).handshakes| == |s.handshakes|
  {
    hide Quiet;
  }

  // A call after a handshake that succeeded: signed in, or sent again with its token.
  predicate GotToken(c: Call, h: nat) {
    if c.kind == LoginOnly then c.sent == [] && c.stage == Done(Fulfilled, Some(h))
    else c.kind == Plain(false) && |c.sent| == 2 && c.sent[1] == Minted(h)
  }

  // All who waited for one handshake share its outcome: if it failed they are all
  // told so without another send, and if it got a token every request among them
  // was sent once more, with that very token.
  lemma SharedOutcome(s: State, ls: seq<Label>, i: nat, j: nat)
    requires Initial(s)
    ensures var t := Exec(s, ls);
            i < |t.calls| && j < |t.calls| && t.calls[i].stage.Done? && t.calls[j].stage.Done?
            && t.calls[i].stage.via.Some? && t.calls[i].stage.via == t.calls[j].stage.via ==>
              var h, a, b := t.calls[i].stage.via.value, t.calls[i], t.calls[j];
              || (Is(t, h, Released(false)) && a.stage == b.stage == Done(Unauthorized, Some(h))
                  && |a.sent| <= 1 && |b.sent| <= 1)
              || (Is(t, h, Released(true))
                  && GotToken(a, h) && GotToken(b, h))
  {
    Safe(s, ls);
    var t := Exec(s, ls);
    if i < |t.calls| && j < |t.calls| {
      assert CallOk(t, t.calls[i]) && CallOk(t, t.calls[j]);
    }
  }

  // A request is settled by the last answer to it: fulfilled exactly on a 2xx,
  // unauthorized exactly on a 401, which the retry's answer overrides; all its
  // sends, no more than two, have been answered by then.
  lemma SettledByLastAnswer(s: State, ls: seq<Label>, i: nat)
    requires Initial(s)
    ensures var t := Exec(s, ls);
            i < |t.calls| && t.calls[i].stage.Done? && t.calls[i].kind.Plain? ==>
              var c := t.calls[i];
              && 1 <= |c.heard| == |c.sent| <= 2
              && (c.stage.outcome == Fulfilled <==> c.heard[|c.heard| - 1] in {Good, Empty})
              && (c.stage.outcome == Unauthorized <==> c.heard[|c.heard| - 1] == Refused)
              && (|c.sent| == 2 ==> c.heard[0] == Refused && c.kind == Plain(false))
  {
    Safe(s, ls);
    var t := Exec(s, ls);
    if i < |t.calls| {
      assert CallOk(t, t.calls[i]);
    }
  }

  // No request is sent more than twice, a suppressed one or a launch check no more
  // than once, and a second send follows a handshake that got the token it carries.
  lemma AtMostTwoSends(s: State, ls: seq<Label>, i: nat)
    requires Initial(s)
    ensures var t := Exec(s, ls);
            i < |t.calls| ==>
              && |t.calls[i].sent| <= (if t.calls[i].kind == LoginOnly then 0
                                       else if t.calls[i].kind == Plain(false) then 2 else 1)
              && (|t.calls[i].sent| == 2 ==>
                    exists h | 0 <= h < |t.handshakes| ::
                      t.handshakes[h] == Released(true) && t.calls[i].sent[1] == Minted(h))
  {
    Safe(s, ls);
    var t := Exec(s, ls);
    if i < |t.calls| {
      var c := t.calls[i];
      assert CallOk(t, c);
      if |c.sent| == 2 {
        var h := if c.stage.Resent? then c.stage.after else c.stage.via.value;
        assert t.handshakes[h] == Released(true);
      }
    }
  }

  // A settled promise stays settled, with what it was settled with.
  lemma {:induction false} SettlesOnce(s: State, ls: seq<Label>, more: seq<Label>, i: nat)
    requires Initial(s) && i < |Exec(s, ls).calls| && Exec(s, ls).calls[i].stage.Done?
    ensures i < |Exec(s, ls + more).calls| && Exec(s, ls + more).calls[i] == Exec(s, ls).calls[i]
    decreases |more|
  {
    if more == [] {
      assert ls + more == ls;
    } else {
      var n := |more| - 1;
      hide Next, Inv, CallOk, FlightOk, CallsOk, Fresh, Apart, Initial, Enabled;
      SettlesOnce(s, ls, more[..n], i);
      assert (ls + more)[..|ls + more| - 1] == ls + more[..n];
      var t := Exec(s, ls + more[..n]);
      if Enabled(t, more[n]) {
        Safe(s, ls + more[..n]);
        Parts(t);
        OthersKeep(t, more[n]);
      }
    }
  }

  lemma Parts(s: State)
    requires Inv(s)
    ensures FlightOk(s) && CallsOk(s) && Fresh(s) && Apart(s)
  {
  }

  // --- Progress -------------------------------------------------------------------

  function CallWork(c: Call): nat {
    match c.stage
    case Sent => if c.kind == Session then 5 else 6
    case Answered(_) => 4
    case Waiting(_) => 2
    case Resent(_) => 1
    case Done(_, _) => 0
  }

  function FlightWork(h: Handshake): nat {
    match h
    case Coding => 3
    case Exchanging => 2
    case Settled(_) => 1
    case Released(_) => 0
  }

  function Calls(cs: seq<Call>): nat {
    if cs == [] then 0 else Calls(cs[..|cs| - 1]) + CallWork(cs[|cs| - 1])
  }

  function Flights(hs: seq<Handshake>): nat {
    if hs == [] then 0 else Flights(hs[..|hs| - 1]) + FlightWork(hs[|hs| - 1])
  }

  function Work(s: State): nat {
    Calls(s.calls) + Flights(s.handshakes)
  }

  lemma {:induction false} CallsPut(cs: seq<Call>, i: nat, c: Call)
    requires i < |cs|
    ensures Calls(cs[i := c]) == Calls(cs) - CallWork(cs[i]) + CallWork(c)
    decreases |cs|
  {
    var n := |cs| - 1;
    if i == n {
      assert cs[i := c][..n] == cs[..n];
    } else {
      CallsPut(cs[..n], i, c);
      assert cs[i := c][..n] == cs[..n][i := c];
    }
  }

  lemma {:induction false} FlightsPut(hs: seq<Handshake>, i: nat, h: Handshake)
    requires i < |hs|
    ensures Flights(hs[i := h]) == Flights(hs) - FlightWork(hs[i]) + FlightWork(h)
    decreases |hs|
  {
    var n := |hs| - 1;
    if i == n {
      assert hs[i := h][..n] == hs[..n];
    } else {
      FlightsPut(hs[..n], i, h);
      assert hs[i := h][..n] == hs[..n][i := h];
    }
  }

  lemma FlightsSnoc(hs: seq<Handshake>, h: Handshake)
    ensures Flights(hs + [h]) == Flights(hs) + FlightWork(h)
  {
    assert (hs + [h])[..|hs|] == hs;
  }

  // A step the page did not ask for.
  predicate Own(l: Label) {
    !l.Launch? && !l.Start? && !l.Login?
  }

  lemma HandshakeWorks(s: State, l: Label)
    requires Enabled(s, l) && (l.Code? || l.Exchange? || l.Release?)
    ensures Work(Next(s, l)) < Work(s)
  {
    hide Quiet, Calls, Flights;
    var h := match l case Code(h, _) => h case Exchange(h, _) => h case Release(h) => h;
    FlightsPut(s.handshakes, h, Next(s, l).handshakes[h]);
  }

  // What a step about a call changes: the call, and perhaps a new handshake.
  lemma SubjectMoves(s: State, l: Label)
    requires FlightOk(s) && CallsOk(s) && Enabled(s, l) && (l.Reply? || l.Follow? || l.Resume?)
    ensures var i, t := Subject(s, l), Next(s, l);
            && |t.calls| == |s.calls| && t.calls == s.calls[i := t.calls[i]]
            && (|| (t.handshakes == s.handshakes && CallWork(t.calls[i]) < CallWork(s.calls[i]))
                || (t.handshakes == s.handshakes + [Coding] && CallWork(t.calls[i]) + 3 < CallWork(s.calls[i])))
  {
    hide Quiet;
    assert CallOk(s, s.calls[Subject(s, l)]);
  }

  // Every callback and reaction uses work up, even where it begins a handshake.
  lemma StepWorks(s: State, l: Label)
    requires FlightOk(s) && CallsOk(s) && Enabled(s, l) && Own(l)
    ensures Work(Next(s, l)) < Work(s)
  {
    if l.Code? || l.Exchange? || l.Release? {
      HandshakeWorks(s, l);
    } else {
      SubjectMoves(s, l);
      var i, t := Subject(s, l), Next(s, l);
      hide Next, Enabled, Subject, Calls, Flights, CallWork;
      CallsPut(s.calls, i, t.calls[i]);
      FlightsSnoc(s.handshakes, Coding);
    }
  }

  // While a call is unsettled, some callback or reaction is still to come: no
  // promise hangs, provided each platform call calls back.
  lemma NoneHangs(s: State, i: nat) returns (l: Label)
    requires FlightOk(s) && CallsOk(s) && i < |s.calls| && !s.calls[i].stage.Done?
    ensures Own(l) && Enabled(s, l)
  {
    if h: nat :| h < |s.handshakes| && s.handshakes[h].Settled? {
      l := Release(h);
    } else if j: nat :| j < |s.calls| && Resumable(s, s.calls[j]) {
      l := Resume(j);
    } else if j: nat :| j < |s.calls| && s.calls[j].stage.Answered? {
      l := Follow(j);
    } else {
      assert Quiet(s);
      var c := s.calls[i];
      assert CallOk(s, c);
      if c.stage.Waiting? {
        var h := c.stage.h;
        assert !Resumable(s, c);
        l := if s.handshakes[h].Coding? then Code(h, true) else Exchange(h, Good);
      } else {
        l := Reply(i, Good, true);
      }
    }
  }

  // So from wherever a run has got to, its own callbacks settle every promise.
  lemma {:induction false} AllSettle(s: State, ls: seq<Label>) returns (more: seq<Label>)
    requires Initial(s)
    ensures |more| <= Work(Exec(s, ls)) && forall k | 0 <= k < |more| :: Own(more[k])
    ensures forall i | 0 <= i < |Exec(s, ls + more).calls| :: Exec(s, ls + more).calls[i].stage.Done?
    decreases Work(Exec(s, ls))
  {
    hide Next, Enabled, Inv, FlightOk, CallsOk, Work, Exec;
    var t := Exec(s, ls);
    if i: nat :| i < |t.calls| && !t.calls[i].stage.Done? {
      Safe(s, ls);
      Parts(t);
      var l := NoneHangs(t, i);
      StepWorks(t, l);
      ExecSnoc(s, ls, l);
      var rest := AllSettle(s, ls + [l]);
      more := [l] + rest;
      assert ls + [l] + rest == ls + more;
    } else {
      more := [];
      assert ls + more == ls;
    }
  }

  lemma ExecSnoc(s: State, ls: seq<Label>, l: Label)
    ensures Exec(s, ls + [l]) == if Enabled(Exec(s, ls), l) then Next(Exec(s, ls), l) else Exec(s, ls)
  {
    assert (ls + [l])[..|ls|] == ls;
  }

  // --- Where the stored token goes ------------------------------------------------

  // A late 401 signs the user out again.  The app's own client drops whatever
  // token is stored, even one newer than the refused request carried; the pages'
  // client leaves it, and so does every other answer.
  lemma ReplyDropsToken(s: State, i: nat, a: Answer, appFound: bool)
    requires Enabled(s, Reply(i, a, appFound)) && CallsOk(s) && s.token != NoToken
    requires s.calls[i].kind == Session ==> s.calls[i].client == App
    ensures Next(s, Reply(i, a, appFound)).token != s.token <==> a == Refused && s.calls[i].client == App
    ensures Next(s, Reply(i, a, appFound)).token in {s.token, NoToken}
  {
    hide Quiet;
  }

  // A run in which two requests go out with the old token and the first is refused.
  const LATE_RUN := [Start(App, false), Start(App, false), Reply(0, Refused, true), Code(0, true), Exchange(0, Good),
                     Release(0), Resume(0)]

  function Late(k: nat): State
    requires k <= 7
  {
    var a := Call(App, Plain(false), Sent, [Cached], []);
    var b := a.(stage := Waiting(0), heard := [Refused]);
    match k
    case 0 => State(Cached, None, [], [])
    case 1 => State(Cached, None, [], [a])
    case 2 => State(Cached, None, [], [a, a])
    case 3 => State(NoToken, Some(0), [Coding], [b, a])
    case 4 => State(NoToken, Some(0), [Exchanging], [b, a])
    case 5 => State(Minted(0), Some(0), [Settled(true)], [b, a])
    case 6 => State(Minted(0), None, [Released(true)], [b, a])
    case 7 => State(Minted(0), None, [Released(true)], [b.(stage := Resent(0), sent := [Cached, Minted(0)]), a])
  }

  lemma LateStep(k: nat)
    requires k < 7
    ensures Enabled(Late(k), LATE_RUN[k]) && Next(Late(k), LATE_RUN[k]) == Late(k + 1)
  {
    var t, u := Late(k), Late(k + 1);
    assert Enabled(t, LATE_RUN[k]);
    match k
    case 0 =>
    case 1 =>
    case 2 =>
      assert [] + [Refused] == [Refused];
      assert Next(t, LATE_RUN[k]).calls == u.calls;
    case 3 =>
      assert t.handshakes[0 := Exchanging] == [Exchanging];
    case 4 =>
      assert t.handshakes[0 := Settled(true)] == [Settled(true)];
    case 5 =>
      assert t.handshakes[0 := Released(true)] == [Released(true)];
    case 6 =>
      assert [Cached] + [Minted(0)] == [Cached, Minted(0)];
      assert t.calls[0 := u.calls[0]] == u.calls;
  }

  lemma {:induction false} LateRuns(k: nat)
    requires k <= 7
    ensures Exec(Late(0), LATE_RUN[..k]) == Late(k)
  {
    if k == 0 {
    } else {
      LateRuns(k - 1);
      LateStep(k - 1);
      hide Next, Enabled, Late;
      ExecSnoc(Late(0), LATE_RUN[..k - 1], LATE_RUN[k - 1]);
      assert LATE_RUN[..k] == LATE_RUN[..k - 1] + [LATE_RUN[k - 1]];
    }
  }

  // It does happen: the handshake's new token is stored and the retry sent with it,
  // then the second request's 401 throws it away and begins another handshake.
  lemma LateRefusalSignsOut()
    ensures var t, u := Exec(Late(0), LATE_RUN), Exec(Late(0), LATE_RUN + [Reply(1, Refused, true)]);
            && t.token == Minted(0) && |t.calls| == 2
            && t.calls[1].sent == [Cached] && t.calls[0].sent == [Cached, Minted(0)]
            && u.token == NoToken && u.flight == Some(1)
  {
    LateRuns(7);
    assert LATE_RUN[..7] == LATE_RUN;
    ExecSnoc(Late(0), LATE_RUN, Reply(1, Refused, true));
  }

  // At launch the cached token survives exactly an authenticated answer: a network
  // failure or a server error drops it as a 401 does, and signs in afresh.
  lemma LaunchKeepsToken(s: State, i: nat, a: Answer, appFound: bool)
    requires Enabled(s, Reply(i, a, appFound)) && CallsOk(s)
    requires s.calls[i].kind == Session && s.calls[i].stage.Sent? && s.token != NoToken
    ensures var t := Next(s, Reply(i, a, appFound));
            Enabled(t, Follow(i)) && (Next(t, Follow(i)).token == s.token <==> a == Good)
            && (a != Good ==> Next(t, Follow(i)).flight.Some?)
  {
    hide Quiet;
  }
}
