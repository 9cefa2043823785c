// The B side's answer to one control trade, and what it makes of that trade.
module Decisions {
  import opened Options
  import opened Text
  import opened Lots

  datatype Decision = Decision(skip: bool, quantityScale: real, sideOverride: string)

  // The model's raw reply once its JSON has been decoded.
  datatype Reply = Reply(skip: bool, quantityScale: real, sideOverride: string)

  predicate IsSide(s: string) {
    s == "BUY" || s == "SELL"
  }

  // Range validation of a decoded reply; None is the "invalid scale" error.
  function Validate(r: Reply): Option<Decision> {
    if r.skip then Some(Decision(true, 0.0, ""))
    else if r.quantityScale <= 0.0 then None
    else
      var floor := if r.quantityScale < 0.05 then 0.05 else r.quantityScale;
      var scale := if floor > 3.0 then 3.0 else floor;
      var side := Norm(r.sideOverride);
      Some(Decision(false, scale, if IsSide(side) then side else ""))
  }

  // The constant-scale decider.
  function Deterministic(scale: real): Decision {
    Decision(false, if scale <= 0.0 then 1.0 else scale, "")
  }

  // Turns a control trade and a decision into B's trade; None is "no trade".
  function ApplyDecision(t: Trade, d: Decision): Option<Trade> {
    if d.skip then None
    else
      var scale := if d.quantityScale <= 0.0 then 1.0 else d.quantityScale;
      var qty := Times(scale, t.quantity);
      var side := if d.sideOverride != "" then Norm(d.sideOverride) else Norm(t.side);
      if qty <= 0.0 || !IsSide(side) then None
      else Some(t.(side := side, quantity := qty))
  }

  predicate SpellsSide(s: string) {
    Spells(s, "BUY") || Spells(s, "SELL")
  }

  // B's trade on the side a text spells, at `size` times the control's quantity.
  predicate Shadows(b: Trade, t: Trade, side: string, size: real) {
    && b.date == t.date && b.symbol == t.symbol && b.price == t.price
    && b.quantity == size * t.quantity
    && b.side == if Spells(side, "BUY") then "BUY" else "SELL"
  }

  // A decision gives no trade exactly when it skips, the control's quantity is not
  // positive, or the text its side is taken from spells neither BUY nor SELL.
  lemma AppliesExactly(t: Trade, d: Decision)
    ensures var out := ApplyDecision(t, d);
            var side := if d.sideOverride != "" then d.sideOverride else t.side;
            && (out.None? <==> d.skip || t.quantity <= 0.0 || !SpellsSide(side))
            && (out.Some? ==> Shadows(out.value, t, side, if d.quantityScale > 0.0 then d.quantityScale else 1.0))
  {
    SideExactly(d.sideOverride);
    SideExactly(t.side);
    hide Norm, Spells;
    var scale := if d.quantityScale <= 0.0 then 1.0 else d.quantityScale;
    Positive(scale, t.quantity);
  }

  lemma Positive(scale: real, quantity: real)
    requires scale > 0.0
    ensures Times(scale, quantity) > 0.0 <==> quantity > 0.0
  {
    if quantity <= 0.0 {
      assert scale * -quantity >= 0.0;
    }
  }

  // A validated reply is always usable.
  lemma ValidatedIsUsable(t: Trade, r: Reply)
    requires t.quantity > 0.0 && SpellsSide(t.side)
    ensures Validate(r).None? <==> !r.skip && r.quantityScale <= 0.0
    ensures Validate(r).Some? ==> Usable(t, r, ApplyDecision(t, Validate(r).value))
  {
    SideExactly(r.sideOverride);
    if Validate(r).Some? {
      var d := Validate(r).value;
      AppliesExactly(t, d);
      assert d.sideOverride == Norm(r.sideOverride) || d.sideOverride == "";
      NormFixed(r.sideOverride);
      SideExactly(d.sideOverride);
    }
    hide Norm, Spells;
  }

  // It skips, or trades the control's symbol on the control's date and price, at 0.05
  // to 3 times its size, on the side it spells if it spells one and on the control's
  // side otherwise.
  ghost predicate Usable(t: Trade, r: Reply, out: Option<Trade>) {
    && (out.None? <==> r.skip)
    && (out.Some? ==>
          && (r.quantityScale < 0.05 ==> out.value.quantity == 0.05 * t.quantity)
          && (0.05 <= r.quantityScale <= 3.0 ==> out.value.quantity == r.quantityScale * t.quantity)
          && (r.quantityScale > 3.0 ==> out.value.quantity == 3.0 * t.quantity)
          && out.value.date == t.date && out.value.symbol == t.symbol && out.value.price == t.price
          && out.value.side in {"BUY", "SELL"}
          && (out.value.side == "BUY" <==>
                Spells(if SpellsSide(r.sideOverride) then r.sideOverride else t.side, "BUY")))
  }

  // B's trades under one decision per control trade, in order.
  function Shadow(ts: seq<Trade>, ds: seq<Decision>): seq<Trade>
    requires |ts| == |ds|
  {
    if ts == [] then [] else
      var n := |ts| - 1;
      match ApplyDecision(ts[n], ds[n])
      case None => Shadow(ts[..n], ds[..n])
      case Some(b) => Shadow(ts[..n], ds[..n]) + [b]
  }
}
