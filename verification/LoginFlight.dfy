// The miniapp's sign-in: requests that a 401 turns into one shared wx.login
// handshake and a single retry.  A step is one platform callback or one promise
// reaction; callbacks wait until the reactions queued before them have run.
module LoginFlight {
  import opened Options

  // A stored token: none, one left by an earlier launch, or the one a handshake got.
  datatype Token = NoToken | Cached | Minted(handshake: nat)

  // The app's own client clears the login on every 401; the pages' client does not.
  datatype Client = App | Pages

  datatype Kind = Plain(suppress: bool) | Session | LoginOnly

  datatype Outcome = Fulfilled | Unauthorized | Errored

  // Where a call's promise stands; `via` is the handshake it waited for.
  datatype Stage =
    | Sent
    | Answered(good: bool)
    | Waiting(h: nat)
    | Resent(after: nat)
    | Done(outcome: Outcome, via: Option<nat>)

  // `sent` is the token each send of this call carried, `heard` the answers to them.
  datatype Call = Call(client: Client, kind: Kind, stage: Stage, sent: seq<Token>, heard: seq<Answer>)

  // wx.login asked for a code; the code is being exchanged; the promise settled;
  // its `finally` ran, which is what callers wait for.
  datatype Handshake = Coding | Exchanging | Settled(ok: bool) | Released(ok: bool)

  datatype Answer = Good | Empty | Refused | OtherStatus | NoNetwork

  datatype State = State(token: Token, flight: Option<nat>, handshakes: seq<Handshake>, calls: seq<Call>)

  datatype Label =
    | Launch
    | Start(client: Client, suppress: bool)
    | Login
    | Reply(call: nat, answer: Answer, appFound: bool)
    | Follow(session: nat)
    | Code(asked: nat, gotCode: bool)
    | Exchange(exchanged: nat, reply: Answer)
    | Release(settled: nat)
    | Resume(waiter: nat)

  // --- Steps --------------------------------------------------------------------

  // loginWithWechat: the handshake in flight, or a new one.
  function Join(s: State): State {
    if s.flight.Some? then s
    else s.(flight := Some(|s.handshakes|), handshakes := s.handshakes + [Coding])
  }

  function Put(s: State, i: nat, c: Call): State
    requires i < |s.calls|
  {
    s.(calls := s.calls[i := c])
  }

  function Finish(s: State, i: nat, outcome: Outcome, via: Option<nat>): State
    requires i < |s.calls|
  {
    Put(s, i, s.calls[i].(stage := Done(outcome, via)))
  }

  function ClearLogin(s: State): State {
    s.(token := NoToken)
  }

  // A call's first 401 asks for a login; a suppressed call's, or a retry's, is final.
  function OnRefused(s: State, i: nat, appFound: bool): State
    requires i < |s.calls|
  {
    var c := s.calls[i];
    var t := if c.client == App then ClearLogin(s) else s;
    if c.kind != Plain(false) || !c.stage.Sent? then
      Finish(t, i, Unauthorized, if c.stage.Resent? then Some(c.stage.after) else None)
    else if c.client == Pages && !appFound then Finish(t, i, Unauthorized, None)
    else
      var u := Join(t);
      Put(u, i, c.(stage := Waiting(if u.flight.Some? then u.flight.value else 0)))
  }

  function OnReply(s: State, i: nat, a: Answer, appFound: bool): State
    requires i < |s.calls|
  {
    var c := s.calls[i].(heard := s.calls[i].heard + [a]);
    var t := Put(s, i, c);
    if c.kind == Session then
      Put(if a == Refused then ClearLogin(t) else t, i, c.(stage := Answered(a == Good)))
    else if a == Refused then OnRefused(t, i, appFound)
    else
      Finish(t, i, if a == Good || a == Empty then Fulfilled else Errored,
             if c.stage.Resent? then Some(c.stage.after) else None)
  }

  // The launch check's reaction: anything but an authenticated session starts afresh.
  function OnFollow(s: State, i: nat): State
    requires i < |s.calls| && s.calls[i].stage.Answered?
  {
    if s.calls[i].stage.good then Finish(s, i, Fulfilled, None)
    else Finish(Join(ClearLogin(s)), i, Errored, None)
  }

  function OnExchange(s: State, h: nat, a: Answer): State
    requires h < |s.handshakes|
  {
    match a
    case Good => s.(token := Minted(h), handshakes := s.handshakes[h := Settled(true)])
    case Refused => s.(token := NoToken, handshakes := s.handshakes[h := Settled(false)])
    case _ => s.(handshakes := s.handshakes[h := Settled(false)])
  }

  function OnResume(s: State, i: nat): State
    requires i < |s.calls| && s.calls[i].stage.Waiting?
    requires s.calls[i].stage.h < |s.handshakes| && s.handshakes[s.calls[i].stage.h].Released?
  {
    var c := s.calls[i];
    var h := c.stage.h;
    if !s.handshakes[h].ok then Finish(s, i, Unauthorized, Some(h))
    else if c.kind == LoginOnly then Finish(s, i, Fulfilled, Some(h))
    else Put(s, i, c.(stage := Resent(h), sent := c.sent + [s.token]))
  }

  // No promise reaction is due.
  predicate Quiet(s: State) {
    && (forall h | 0 <= h < |s.handshakes| :: !s.handshakes[h].Settled?)
    && (forall i | 0 <= i < |s.calls| :: !s.calls[i].stage.Answered? && !Resumable(s, s.calls[i]))
  }

  predicate Resumable(s: State, c: Call) {
    c.stage.Waiting? && c.stage.h < |s.handshakes| && s.handshakes[c.stage.h].Released?
  }

  predicate Enabled(s: State, l: Label) {
    match l
    case Launch => true
    case Start(_, _) => true
    case Login => true
    case Reply(i, _, _) => i < |s.calls| && (s.calls[i].stage.Sent? || s.calls[i].stage.Resent?) && Quiet(s)
    case Follow(i) => i < |s.calls| && s.calls[i].stage.Answered?
    case Code(h, _) => h < |s.handshakes| && s.handshakes[h].Coding? && Quiet(s)
    case Exchange(h, _) => h < |s.handshakes| && s.handshakes[h].Exchanging? && Quiet(s)
    case Release(h) => h < |s.handshakes| && s.handshakes[h].Settled?
    case Resume(i) => i < |s.calls| && Resumable(s, s.calls[i])
  }

  function Next(s: State, l: Label): State
    requires Enabled(s, l)
  {
    match l
    case Launch =>
      if s.token.NoToken? then Join(s) else s.(calls := s.calls + [Call(App, Session, Sent, [s.token], [])])
    case Start(client, suppress) => s.(calls := s.calls + [Call(client, Plain(suppress), Sent, [s.token], [])])
    case Login =>
      var t := Join(s);
      t.(calls := t.calls + [Call(App, LoginOnly, Waiting(if t.flight.Some? then t.flight.value else 0), [], [])])
    case Reply(i, a, appFound) => OnReply(s, i, a, appFound)
    case Follow(i) => OnFollow(s, i)
    case Code(h, gotCode) => s.(handshakes := s.handshakes[h := if gotCode then Exchanging else Settled(false)])
    case Exchange(h, a) => OnExchange(s, h, a)
    case Release(h) => s.(flight := None, handshakes := s.handshakes[h := Released(s.handshakes[h].ok)])
    case Resume(i) => OnResume(s, i)
  }

  // A run; a callback that cannot fire now is passed over.
  function Exec(s: State, ls: seq<Label>): State {
    if ls == [] then s else
      var t := Exec(s, ls[..|ls| - 1]);
      var l := ls[|ls| - 1];
      if Enabled(t, l) then Next(t, l) else t
  }
}
