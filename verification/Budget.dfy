// The model-backed decider, which one service object shares between runs, and what
// its call budget is worth to each run.
module Budget {
  import opened Options
  import opened Decisions
  import opened Lots

  // The decision for a trade when `left` calls may still be made: the model is asked
  // while any are; a failed or invalid reply, and every trade after that, falls back
  // to the deterministic decision.
  function DecisionAt(left: nat, reply: Option<Reply>, scale: real): Decision {
    if left == 0 || reply.None? || Validate(reply.value).None? then Deterministic(scale)
    else Validate(reply.value).value
  }

  function LeftAfter(left: nat, trades: nat): nat {
    if trades < left then left - trades else 0
  }

  function DecisionsFor(replies: seq<Option<Reply>>, left: nat, scale: real): seq<Decision> {
    seq(|replies|, k requires 0 <= k < |replies| => DecisionAt(LeftAfter(left, k), replies[k], scale))
  }

  // One run as the decider sees it: how many trades it decided on, and whether it
  // got as far as the summary, the only place where the counter is reset.
  datatype Session = Session(trades: nat, summarised: bool)

  function UsedAfter(max: nat, used: nat, run: Session): nat {
    if run.summarised then 0
    else if used + run.trades < max then used + run.trades
    else if used < max then max else used
  }

  // The counter after a history of runs of a new decider.
  function Used(max: nat, runs: seq<Session>): nat {
    if runs == [] then 0 else UsedAfter(max, Used(max, runs[..|runs| - 1]), runs[|runs| - 1])
  }

  class Decider {
    var callsThisRun: nat
    const maxCalls: nat

    ghost function Left(): nat
      reads this
    {
      LeftAfter(maxCalls, callsThisRun)
    }

    constructor (maxCalls: nat)
      ensures this.maxCalls == maxCalls && callsThisRun == Used(maxCalls, [])
    {
      this.maxCalls, callsThisRun := maxCalls, 0;
    }

    // `reply` is what the model would answer if asked; None is an error, which
    // uses up a call as an answer does.
    method DecideTrade(reply: Option<Reply>, scale: real) returns (d: Decision)
      modifies this`callsThisRun
      ensures d == DecisionAt(old(Left()), reply, scale)
      ensures Left() == LeftAfter(old(Left()), 1)
      ensures callsThisRun == UsedAfter(maxCalls, old(callsThisRun), Session(1, false))
    {
      if callsThisRun >= maxCalls {
        return Deterministic(scale);
      }
      callsThisRun := callsThisRun + 1;
      if reply.None? {
        return Deterministic(scale);
      }
      var parsed := Validate(reply.value);
      d := if parsed.None? then Deterministic(scale) else parsed.value;
    }

    // The recap at the end of a run, reached only when B has a team and no statement
    // has failed.
    method SummarizeBLearning(ghost trades: nat)
      modifies this`callsThisRun
      ensures callsThisRun == UsedAfter(maxCalls, old(callsThisRun), Session(trades, true)) && Left() == maxCalls
    {
      callsThisRun := 0;
    }
  }

  // No run since the last summary decided on a trade.
  ghost predicate IdleSinceSummary(runs: seq<Session>) {
    runs == [] || runs[|runs| - 1].summarised || (runs[|runs| - 1].trades == 0 && IdleSinceSummary(runs[..|runs| - 1]))
  }

  // A run starts with the whole budget exactly when every run since the last one that
  // was summarised decided on no trade; the others leave theirs used up in part.
  lemma {:induction false} WholeBudgetExactly(max: nat, runs: seq<Session>)
    requires max > 0
    ensures Used(max, runs) <= max
    ensures LeftAfter(max, Used(max, runs)) == max <==> IdleSinceSummary(runs)
    decreases |runs|
  {
    if runs != [] {
      WholeBudgetExactly(max, runs[..|runs| - 1]);
    }
  }

  // What is left is the cap less the trades decided on since the last summary.
  function SinceSummary(runs: seq<Session>): nat {
    if runs == [] || runs[|runs| - 1].summarised then 0
    else SinceSummary(runs[..|runs| - 1]) + runs[|runs| - 1].trades
  }

  lemma {:induction false} LeftExactly(max: nat, runs: seq<Session>)
    ensures Used(max, runs) <= max
    ensures LeftAfter(max, Used(max, runs)) == LeftAfter(max, SinceSummary(runs))
    decreases |runs|
  {
    if runs != [] {
      LeftExactly(max, runs[..|runs| - 1]);
    }
  }

  // A run of n trades is decided as with the whole budget, whatever the model
  // answers, exactly when the whole budget is left or what is left covers them all.
  lemma DecidedAsWhole(n: nat, left: nat, max: nat, scale: real)
    requires left <= max
    ensures (forall replies: seq<Option<Reply>> | |replies| == n ::
               DecisionsFor(replies, left, scale) == DecisionsFor(replies, max, scale))
       <==> n <= left || left == max
  {
    if n <= left || left == max {
      forall replies: seq<Option<Reply>> | |replies| == n
        ensures DecisionsFor(replies, left, scale) == DecisionsFor(replies, max, scale)
      {
      }
    } else {
      var replies := seq(n, k => Some(Reply(true, 0.0, "")));
      assert DecisionsFor(replies, left, scale)[left] == Deterministic(scale);
      assert DecisionsFor(replies, max, scale)[left] == Decision(true, 0.0, "");
    }
  }

  // What becomes of a trade: as the model says while a call is left and its reply can
  // be used, and otherwise the control's own trade at the strategy's scale.
  lemma DecidedExactly(t: Trade, left: nat, reply: Option<Reply>, scale: real)
    requires t.quantity > 0.0 && SpellsSide(t.side)
    ensures var out := ApplyDecision(t, DecisionAt(left, reply, scale));
            if left > 0 && reply.Some? && (reply.value.skip || reply.value.quantityScale > 0.0)
            then Usable(t, reply.value, out)
            else out.Some? && Shadows(out.value, t, t.side, if scale > 0.0 then scale else 1.0)
  {
    AppliesExactly(t, DecisionAt(left, reply, scale));
    if reply.Some? {
      ValidatedIsUsable(t, reply.value);
    }
    hide ApplyDecision, Usable, Shadows, SpellsSide;
  }

  // The model is asked about trade k of a run exactly when fewer trades than the cap
  // have been decided on since the last summary, trade k's predecessors included.
  lemma AskedExactly(max: nat, runs: seq<Session>, k: nat)
    ensures LeftAfter(LeftAfter(max, Used(max, runs)), k) > 0 <==> SinceSummary(runs) + k < max
  {
    LeftExactly(max, runs);
  }

  // One more trade of a run.
  lemma DecisionsSnoc(left: nat, trades: nat)
    ensures LeftAfter(LeftAfter(left, trades), 1) == LeftAfter(left, trades + 1)
  {
  }

  lemma UsedSnoc(max: nat, used: nat, trades: nat)
    ensures UsedAfter(max, UsedAfter(max, used, Session(trades, false)), Session(1, false))
         == UsedAfter(max, used, Session(trades + 1, false))
  {
  }
}
