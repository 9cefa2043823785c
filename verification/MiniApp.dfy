// The miniapp's global data and stored token, changed by its callbacks one at a time.
// `run` is the schedule that led here, so that whatever holds of every run of the
// sign-in's step machine holds of the object.
module MiniApp {
  import opened Options
  import opened LoginFlight
  import opened LoginSafety

  class Miniprogram {
    var token: Token
    var inFlight: Option<nat>
    var handshakes: seq<Handshake>
    var calls: seq<Call>
    ghost const first: State
    ghost var run: seq<Label>

    ghost function Value(): State
      reads this
    {
      State(token, inFlight, handshakes, calls)
    }

    ghost predicate Valid()
      reads this
    {
      Initial(first) && Value() == Exec(first, run)
    }

    constructor (token: Token)
      ensures Valid() && run == [] && this.token == token && inFlight == None && handshakes == [] && calls == []
    {
      this.token, inFlight, handshakes, calls := token, None, [], [];
      first, run := State(token, None, [], []), [];
    }

    // The invariant of every run, in the object's own terms: the handshake in flight is
    // the only unfinished one, and no call has been sent more than twice.
    lemma Promises()
      requires Valid()
      ensures FlightOk(Value()) && CallsOk(Value()) && Fresh(Value()) && Apart(Value())
      ensures inFlight.Some? ==> inFlight.value < |handshakes| && !handshakes[inFlight.value].Released?
      ensures forall h | 0 <= h < |handshakes| && !handshakes[h].Released? :: inFlight == Some(h)
      ensures forall i | 0 <= i < |calls| :: |calls[i].sent| <= 2
    {
      Safe(first, run);
      Parts(Value());
      forall i | 0 <= i < |calls| ensures |calls[i].sent| <= 2 {
        AtMostTwoSends(first, run, i);
      }
    }

    // onLaunch: with a cached token, one check goes out carrying it and nothing else
    // happens; without one, no call is made and a sign-in is in flight.
    method BootstrapSession()
      requires Valid()
      modifies this
      ensures Valid() && run == old(run) + [Launch] && token == old(token)
      ensures token == NoToken ==> inFlight.Some? && calls == old(calls) && |handshakes| <= |old(handshakes)| + 1
      ensures token != NoToken ==>
                && inFlight == old(inFlight) && handshakes == old(handshakes) && |calls| == |old(calls)| + 1
                && calls[|old(calls)|].kind == Session && calls[|old(calls)|].sent == [token]
    {
      ghost var was := Value();
      Extended(first, run, Launch);
      if token != NoToken {
        calls := calls + [Call(App, Session, Sent, [token], [])];
      } else {
        var h := LoginWithWechat();
      }
      run := run + [Launch];
      assert Value() == Next(was, Launch);
    }

    // The promise of the handshake in flight, which it begins if there is none.
    method LoginWithWechat() returns (h: nat)
      modifies this`inFlight, this`handshakes
      ensures Value() == Join(old(Value())) && inFlight == Some(h)
      ensures old(inFlight) == None ==> h == old(|handshakes|)
    {
      if inFlight.Some? {
        return inFlight.value;
      }
      h := |handshakes|;
      handshakes := handshakes + [Coding];
      inFlight := Some(h);
    }

    method ClearLogin()
      modifies this`token
      ensures token == NoToken
    {
      token := NoToken;
    }

    // A page asks to be signed in: it waits for the handshake in flight, the same one
    // as everyone else, and only if there was none has one begun.
    method SignIn() returns (i: nat)
      requires Valid()
      modifies this
      ensures Valid() && run == old(run) + [Login] && token == old(token)
      ensures i == |old(calls)| && i < |calls| && inFlight.Some? && calls[i].stage == Waiting(inFlight.value)
      ensures inFlight.value < |handshakes| && !handshakes[inFlight.value].Released?
      ensures old(inFlight).Some? ==> inFlight == old(inFlight) && handshakes == old(handshakes)
    {
      ghost var was := Value();
      Extended(first, run, Login);
      var h := LoginWithWechat();
      i := |calls|;
      calls := calls + [Call(App, LoginOnly, Waiting(h), [], [])];
      run := run + [Login];
      assert Value() == Next(was, Login);
      Promises();
    }

    // A page's request: it never starts a sign-in by going out, and carries the token
    // stored at that moment, the one a handshake has just brought included.
    method Request(client: Client, suppressAutoLogin: bool) returns (i: nat)
      requires Valid()
      modifies this
      ensures Valid() && run == old(run) + [Start(client, suppressAutoLogin)]
      ensures i == |old(calls)| && i < |calls| && calls[..i] == old(calls)
      ensures calls[i].sent == [old(token)] && calls[i].stage == Sent
      ensures token == old(token) && inFlight == old(inFlight) && handshakes == old(handshakes)
      ensures forall h | 0 <= h < |handshakes| && handshakes[h] == Settled(true) :: calls[i].sent == [Minted(h)]
    {
      Promises();
      ghost var was := Value();
      Extended(first, run, Start(client, suppressAutoLogin));
      i := |calls|;
      calls := calls + [Call(client, Plain(suppressAutoLogin), Sent, [token], [])];
      run := run + [Start(client, suppressAutoLogin)];
      assert Value() == Next(was, Start(client, suppressAutoLogin));
    }

    method Settle(i: nat, outcome: Outcome, via: Option<nat>)
      requires i < |calls|
      modifies this`calls
      ensures Value() == Finish(old(Value()), i, outcome, via)
    {
      calls := calls[i := calls[i].(stage := Done(outcome, via))];
    }

    // wx.request answered request `i`.  It is settled by that answer, unless the answer
    // is its first 401 and it may sign in: then it waits for the one handshake there is.
    // A 401 to the app's own client drops the stored token; nothing else does.
    method OnResponse(i: nat, a: Answer, appFound: bool)
      requires Valid() && i < |calls| && Enabled(Value(), Reply(i, a, appFound)) && calls[i].kind.Plain?
      modifies this
      ensures Valid() && run == old(run) + [Reply(i, a, appFound)] && |calls| == |old(calls)|
      ensures var asks := a == Refused && old(calls[i].kind) == Plain(false) && |old(calls[i].sent)| == 1
                          && (old(calls[i].client) == App || appFound);
              && (if asks then inFlight.Some? && calls[i].stage == Waiting(inFlight.value)
                  else
                    && calls[i].stage.Done?
                    && (calls[i].stage.outcome == Fulfilled <==> a in {Good, Empty})
                    && (calls[i].stage.outcome == Unauthorized <==> a == Refused))
              && (|handshakes| > |old(handshakes)| <==> asks && old(inFlight) == None)
      ensures calls[i].sent == old(calls[i].sent)
      ensures token == if a == Refused && old(calls[i].client) == App then NoToken else old(token)
    {
      Promises();
      ghost var was := Value();
      Extended(first, run, Reply(i, a, appFound));
      assert CallOk(was, was.calls[i]);
      hide Quiet, CallOk, FlightOk, Fresh, Apart, Exec;
      var c := calls[i].(heard := calls[i].heard + [a]);
      calls := calls[i := c];
      var via := if c.stage.Resent? then Some(c.stage.after) else None;
      if a == Refused {
        if c.client == App {
          ClearLogin();
        }
        if c.kind == Plain(false) && c.stage.Sent? && (c.client == App || appFound) {
          var h := LoginWithWechat();
          calls := calls[i := c.(stage := Waiting(h))];
        } else {
          Settle(i, Unauthorized, via);
        }
      } else if a == Good || a == Empty {
        Settle(i, Fulfilled, via);
      } else {
        Settle(i, Errored, via);
      }
      run := run + [Reply(i, a, appFound)];
      assert Value() == Next(was, Reply(i, a, appFound));
    }

    // wx.request answered the launch check: a 401 drops the token at once; what else
    // follows is left to the promise's reaction.
    method OnSessionResponse(i: nat, a: Answer)
      requires Valid() && i < |calls| && Enabled(Value(), Reply(i, a, true)) && calls[i].kind == Session
      modifies this
      ensures Valid() && run == old(run) + [Reply(i, a, true)] && |calls| == |old(calls)|
      ensures calls[i].stage == Answered(a == Good) && handshakes == old(handshakes)
      ensures token == if a == Refused then NoToken else old(token)
    {
      ghost var was := Value();
      Extended(first, run, Reply(i, a, true));
      hide Quiet, Exec;
      if a == Refused {
        ClearLogin();
      }
      calls := calls[i := calls[i].(heard := calls[i].heard + [a], stage := Answered(a == Good))];
      run := run + [Reply(i, a, true)];
      assert Value() == Next(was, Reply(i, a, true));
    }

    // The launch check's reaction: the token outlives it exactly when the one answer
    // was an authenticated session; otherwise a sign-in is in flight.
    method OnSession(i: nat)
      requires Valid() && i < |calls| && calls[i].stage.Answered?
      modifies this
      ensures Valid() && run == old(run) + [Follow(i)] && |calls| == |old(calls)|
      ensures |calls[i].heard| == 1
      ensures calls[i].stage == Done(if calls[i].heard[0] == Good then Fulfilled else Errored, None)
      ensures calls[i].heard[0] == Good ==> token == old(token) && handshakes == old(handshakes)
      ensures calls[i].heard[0] != Good ==> token == NoToken && inFlight.Some?
    {
      Promises();
      ghost var was := Value();
      Extended(first, run, Follow(i));
      assert CallOk(was, was.calls[i]);
      hide CallOk, FlightOk, Fresh, Apart, Exec;
      if calls[i].stage.good {
        Settle(i, Fulfilled, None);
      } else {
        ClearLogin();
        var h := LoginWithWechat();
        Settle(i, Errored, None);
      }
      run := run + [Follow(i)];
      assert Value() == Next(was, Follow(i));
    }

    // wx.login answered.  The handshake stays the one in flight, so callers keep joining
    // it, no other is begun and nobody resumes yet.
    method OnCode(h: nat, gotCode: bool)
      requires Valid() && Enabled(Value(), Code(h, gotCode))
      modifies this
      ensures Valid() && run == old(run) + [Code(h, gotCode)] && token == old(token) && calls == old(calls)
      ensures inFlight == Some(h) && |handshakes| == |old(handshakes)|
      ensures gotCode ==> handshakes[h].Exchanging?
      ensures !gotCode ==> handshakes[h] == Settled(false)
      ensures forall i | 0 <= i < |calls| :: !Resumable(Value(), calls[i])
    {
      Promises();
      ghost var was := Value();
      Extended(first, run, Code(h, gotCode));
      hide Exec, Fresh, Apart, CallOk, Resumable;
      if gotCode {
        handshakes := handshakes[h := Exchanging];
      } else {
        handshakes := handshakes[h := Settled(false)];
      }
      run := run + [Code(h, gotCode)];
      assert Value() == Next(was, Code(h, gotCode));
      NobodyResumes(was, Value(), h);
    }

    // The code exchange answered.  On success the token is stored while nobody can
    // resume yet; a refused exchange signs out and begins no other handshake.
    method OnExchanged(h: nat, a: Answer)
      requires Valid() && Enabled(Value(), Exchange(h, a))
      modifies this
      ensures Valid() && run == old(run) + [Exchange(h, a)] && calls == old(calls)
      ensures inFlight == Some(h) && |handshakes| == |old(handshakes)| && handshakes[h] == Settled(a == Good)
      ensures a == Good ==> token == Minted(h)
      ensures a != Good ==> token == if a == Refused then NoToken else old(token)
      ensures forall i | 0 <= i < |calls| :: !Resumable(Value(), calls[i])
    {
      Promises();
      ghost var was := Value();
      Extended(first, run, Exchange(h, a));
      hide Exec, Fresh, Apart, CallOk, Resumable;
      if a == Good {
        token := Minted(h);
        handshakes := handshakes[h := Settled(true)];
      } else {
        if a == Refused {
          ClearLogin();
        }
        handshakes := handshakes[h := Settled(false)];
      }
      run := run + [Exchange(h, a)];
      assert Value() == Next(was, Exchange(h, a));
      NobodyResumes(was, Value(), h);
    }

    // The handshake's `finally`: no handshake is unfinished any more, everyone who waited
    // for this one can go on, and if it succeeded its token is the one they will send.
    method OnFinally(h: nat)
      requires Valid() && Enabled(Value(), Release(h))
      modifies this
      ensures Valid() && run == old(run) + [Release(h)] && token == old(token) && calls == old(calls)
      ensures inFlight == None && |handshakes| == |old(handshakes)| && handshakes[h] == Released(old(handshakes[h].ok))
      ensures forall g | 0 <= g < |handshakes| :: handshakes[g].Released?
      ensures forall i | 0 <= i < |calls| && calls[i].stage == Waiting(h) :: Resumable(Value(), calls[i])
      ensures handshakes[h].ok ==> token == Minted(h)
    {
      Promises();
      ghost var was := Value();
      Extended(first, run, Release(h));
      hide Exec, Apart, CallOk, Quiet;
      inFlight := None;
      handshakes := handshakes[h := Released(handshakes[h].ok)];
      run := run + [Release(h)];
      assert Value() == Next(was, Release(h));
    }

    // A caller of a finished handshake goes on.  If it failed the caller is told so
    // without another send; if it succeeded a sign-in is done, and a request is sent a
    // second and last time, with that handshake's token.
    method OnLoggedIn(i: nat)
      requires Valid() && i < |calls| && Resumable(Value(), calls[i])
      modifies this
      ensures Valid() && run == old(run) + [Resume(i)] && |calls| == |old(calls)|
      ensures token == old(token) && inFlight == old(inFlight) && handshakes == old(handshakes)
      ensures var h := old(calls[i].stage.h);
              && h < |handshakes| && handshakes[h].Released?
              && (!handshakes[h].ok ==>
                    calls[i].stage == Done(Unauthorized, Some(h)) && calls[i].sent == old(calls[i].sent))
              && (handshakes[h].ok && calls[i].kind == LoginOnly ==> calls[i].stage == Done(Fulfilled, Some(h)))
              && (handshakes[h].ok && calls[i].kind != LoginOnly ==>
                    calls[i].stage == Resent(h) && |calls[i].sent| == 2 && calls[i].sent[1] == Minted(h))
    {
      Promises();
      ghost var was := Value();
      Extended(first, run, Resume(i));
      assert CallOk(was, was.calls[i]);
      hide Exec, Quiet, FlightOk, Apart, CallsOk;
      var c := calls[i];
      var h := c.stage.h;
      if !handshakes[h].ok {
        Settle(i, Unauthorized, Some(h));
      } else if c.kind == LoginOnly {
        Settle(i, Fulfilled, Some(h));
      } else {
        calls := calls[i := c.(stage := Resent(h), sent := c.sent + [token])];
      }
      run := run + [Resume(i)];
      assert Value() == Next(was, Resume(i));
    }
  }

  lemma Extended(first: State, run: seq<Label>, l: Label)
    requires Enabled(Exec(first, run), l)
    ensures Exec(first, run + [l]) == Next(Exec(first, run), l)
  {
    ExecSnoc(first, run, l);
  }

  // While a handshake is unfinished and no reaction is due, no caller can go on.
  lemma NobodyResumes(s: State, t: State, h: nat)
    requires Quiet(s) && t.calls == s.calls && h < |s.handshakes|
    requires |t.handshakes| == |s.handshakes| && !t.handshakes[h].Released?
    requires forall g | 0 <= g < |s.handshakes| && g != h :: t.handshakes[g] == s.handshakes[g]
    ensures forall i | 0 <= i < |t.calls| :: !Resumable(t, t.calls[i])
  {
    forall i | 0 <= i < |t.calls| ensures !Resumable(t, t.calls[i]) {
      assert !Resumable(s, s.calls[i]);
    }
  }
}
