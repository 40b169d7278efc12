/**
 * The treatment plan of the hospitalization form: adding, removing and
 * editing plan lines, where a change to the unit price, the quantity or the
 * discount percentage recomputes the line's discount and subtotal, and the
 * totals with the global discount and ten percent consumption tax.  Amounts
 * are whole yen; percentages are whole numbers.
 */
module HospitalizationForm {
  import opened Common

  /** A TreatmentPlan line. */
  datatype TreatmentPlan = TreatmentPlan(
    id: string,
    treatmentContent: string,
    memo: string,
    insurance: bool,
    unitPrice: int,
    quantity: int,
    discount: int,
    discountAmount: int,
    subtotal: int)

  /** The `[field]: value` of an edit: which field, and its new value. */
  datatype PlanEdit =
    | SetId(id: string)
    | SetTreatmentContent(text: string)
    | SetMemo(text: string)
    | SetInsurance(flag: bool)
    | SetUnitPrice(amount: int)
    | SetQuantity(amount: int)
    | SetDiscount(amount: int)
    | SetDiscountAmount(amount: int)
    | SetSubtotal(amount: int)
  {
    /** The edit changes one of the fields the line's amounts are computed from. */
    predicate Recomputes() {
      SetUnitPrice? || SetQuantity? || SetDiscount?
    }
  }

  /** `{...plan, [field]: value}`. */
  function Assigned(plan: TreatmentPlan, edit: PlanEdit): TreatmentPlan {
    match edit
    case SetId(v) => plan.(id := v)
    case SetTreatmentContent(v) => plan.(treatmentContent := v)
    case SetMemo(v) => plan.(memo := v)
    case SetInsurance(v) => plan.(insurance := v)
    case SetUnitPrice(v) => plan.(unitPrice := v)
    case SetQuantity(v) => plan.(quantity := v)
    case SetDiscount(v) => plan.(discount := v)
    case SetDiscountAmount(v) => plan.(discountAmount := v)
    case SetSubtotal(v) => plan.(subtotal := v)
  }

  /** Math.floor(base * (discount / 100)): the discount in yen, rounded down. */
  function DiscountAmount(base: int, discount: int): (d: int)
    ensures d * 100 <= base * discount < d * 100 + 100
  {
    base * discount / 100
  }

  /**
   * The line after an edit: the field set, and the amounts recomputed when
   * a price, quantity or discount changed.  The edit has taken effect
   * (applying it again changes nothing), every field other than the two
   * derived amounts is as the plain assignment left it, and a recomputed
   * line's discount is the floored percentage of price times quantity,
   * the subtotal the rest.
   */
  function Edited(plan: TreatmentPlan, edit: PlanEdit): (r: TreatmentPlan)
    ensures Assigned(r, edit) == r
    ensures r.(discountAmount := 0, subtotal := 0) == Assigned(plan, edit).(discountAmount := 0, subtotal := 0)
    ensures edit.Recomputes() ==> r.subtotal + r.discountAmount == r.unitPrice * r.quantity
    ensures edit.Recomputes() ==>
              r.discountAmount * 100 <= r.unitPrice * r.quantity * r.discount < r.discountAmount * 100 + 100
  {
    var updated := Assigned(plan, edit);
    if edit.Recomputes() then
      var base := updated.unitPrice * updated.quantity;
      var discountAmount := DiscountAmount(base, updated.discount);
      updated.(discountAmount := discountAmount, subtotal := base - discountAmount)
    else updated
  }

  /**
   * After a price, quantity or discount edit the line is consistent: its
   * discount and subtotal add up to price times quantity, and with a
   * discount between 0 and 100 percent on a non-negative amount, the
   * subtotal lies between nothing and the full amount.
   */
  lemma RecomputedLineIsConsistent(plan: TreatmentPlan, edit: PlanEdit)
    requires edit.Recomputes()
    ensures Edited(plan, edit).subtotal + Edited(plan, edit).discountAmount ==
            Edited(plan, edit).unitPrice * Edited(plan, edit).quantity
    ensures 0 <= Edited(plan, edit).discount <= 100 && Edited(plan, edit).unitPrice * Edited(plan, edit).quantity >= 0 ==>
            0 <= Edited(plan, edit).subtotal <= Edited(plan, edit).unitPrice * Edited(plan, edit).quantity
  {
    var e := Edited(plan, edit);
    var base := e.unitPrice * e.quantity;
    if 0 <= e.discount <= 100 && base >= 0 {
      assert base * e.discount <= base * 100;
      assert e.discountAmount * 100 <= base * 100;
      assert 0 <= base * e.discount;
    }
  }

  /** Any other edit leaves the line's amounts as they were, unless it sets one of them itself. */
  lemma OtherEditsKeepAmounts(plan: TreatmentPlan, edit: PlanEdit)
    requires !edit.Recomputes()
    ensures !edit.SetDiscountAmount? ==> Edited(plan, edit).discountAmount == plan.discountAmount
    ensures !edit.SetSubtotal? ==> Edited(plan, edit).subtotal == plan.subtotal
    ensures Edited(plan, edit).unitPrice == plan.unitPrice && Edited(plan, edit).quantity == plan.quantity
  {
  }

  /** A free-text edit of the treatment is taken as it is; the amounts are untouched, even if stale. */
  lemma ContentEditIsPlain(plan: TreatmentPlan, text: string)
    ensures Edited(plan, SetTreatmentContent(text)) == plan.(treatmentContent := text)
  {
  }

  /** Setting the same price twice is setting it once: the recomputation depends only on the line's fields. */
  lemma EditIdempotent(plan: TreatmentPlan, edit: PlanEdit)
    ensures Edited(Edited(plan, edit), edit) == Edited(plan, edit)
  {
  }

  /** The edit of one line as the map callback performs it: set the field, then recompute if needed. */
  method EditLine(plan: TreatmentPlan, edit: PlanEdit) returns (updated: TreatmentPlan)
    ensures updated == Edited(plan, edit)
  {
    updated := Assigned(plan, edit);
    if edit.Recomputes() {
      var unitPrice := updated.unitPrice;
      var quantity := updated.quantity;
      var discount := updated.discount;
      var baseAmount := unitPrice * quantity;
      updated := updated.(discountAmount := baseAmount * discount / 100);
      updated := updated.(subtotal := baseAmount - updated.discountAmount);
    }
  }

  /** The list after an edit of the line with `planId`: that line edited, every other line as it was. */
  function EditedPlans(plans: seq<TreatmentPlan>, planId: string, edit: PlanEdit): (r: seq<TreatmentPlan>)
    ensures |r| == |plans|
    ensures forall i | 0 <= i < |plans| :: r[i] == if plans[i].id == planId then Edited(plans[i], edit) else plans[i]
  {
    seq(|plans|, i requires 0 <= i < |plans| => if plans[i].id == planId then Edited(plans[i], edit) else plans[i])
  }

  /** The map over the lines: each line with `planId` edited by EditLine, the others copied. */
  method EditAll(plans: seq<TreatmentPlan>, planId: string, edit: PlanEdit) returns (next: seq<TreatmentPlan>)
    ensures next == EditedPlans(plans, planId, edit)
  {
    next := [];
    var i := 0;
    while i < |plans|
      invariant 0 <= i <= |plans|
      invariant |next| == i
      invariant forall k | 0 <= k < i :: next[k] == if plans[k].id == planId then Edited(plans[k], edit) else plans[k]
    {
      var plan := plans[i];
      if plan.id == planId {
        plan := EditLine(plan, edit);
      }
      next := next + [plan];
      i := i + 1;
    }
  }

  /** The blank line addTreatmentPlan appends: no price, quantity 1, no discount, nothing due. */
  function BlankPlan(id: string): (p: TreatmentPlan)
    ensures p.unitPrice == 0 && p.quantity == 1 && p.subtotal == 0 && p.discountAmount == 0
  {
    TreatmentPlan(id, "", "", false, 0, 1, 0, 0, 0)
  }

  /** The list without the lines with `planId`. */
  function Removed(plans: seq<TreatmentPlan>, planId: string): seq<TreatmentPlan> {
    Filter(plans, (p: TreatmentPlan) => p.id != planId)
  }

  // ---------------------------------------------------------------------------
  // Totals

  /** The sum of the line subtotals. */
  function SumSubtotals(plans: seq<TreatmentPlan>): int {
    if plans == [] then 0 else SumSubtotals(plans[..|plans| - 1]) + plans[|plans| - 1].subtotal
  }

  datatype Totals = Totals(
    subtotalBeforeDiscount: int,
    discountAmount: int,
    subtotalAfterDiscount: int,
    consumptionTax: int,
    total: int)

  /** calculateTotals: the subtotals summed, the global discount taken off, then ten percent tax rounded down. */
  function CalculateTotals(plans: seq<TreatmentPlan>, globalDiscountAmount: int): (t: Totals)
    ensures t.subtotalBeforeDiscount == SumSubtotals(plans)
    ensures t.subtotalAfterDiscount == t.subtotalBeforeDiscount - globalDiscountAmount
    ensures t.consumptionTax * 10 <= t.subtotalAfterDiscount < t.consumptionTax * 10 + 10
    ensures t.total == t.subtotalAfterDiscount + t.consumptionTax
  {
    var before := SumSubtotals(plans);
    var after := before - globalDiscountAmount;
    var tax := after / 10;
    Totals(before, globalDiscountAmount, after, tax, after + tax)
  }

  /** The total with tax is at least the amount before tax and at most 110 percent of it, when that amount is not negative. */
  lemma TotalWithinTenPercent(plans: seq<TreatmentPlan>, globalDiscountAmount: int)
    requires CalculateTotals(plans, globalDiscountAmount).subtotalAfterDiscount >= 0
    ensures CalculateTotals(plans, globalDiscountAmount).subtotalAfterDiscount <= CalculateTotals(plans, globalDiscountAmount).total
    ensures CalculateTotals(plans, globalDiscountAmount).total * 10 <= CalculateTotals(plans, globalDiscountAmount).subtotalAfterDiscount * 11
  {
  }

  lemma {:induction false} SumAppend(plans: seq<TreatmentPlan>, p: TreatmentPlan)
    ensures SumSubtotals(plans + [p]) == SumSubtotals(plans) + p.subtotal
  {
    assert (plans + [p])[..|plans|] == plans;
  }

  /** A new blank line adds nothing to the totals. */
  lemma BlankLineAddsNothing(plans: seq<TreatmentPlan>, id: string, globalDiscountAmount: int)
    ensures CalculateTotals(plans + [BlankPlan(id)], globalDiscountAmount) == CalculateTotals(plans, globalDiscountAmount)
  {
    SumAppend(plans, BlankPlan(id));
  }

  /** Removing a line takes exactly its subtotal off the sum. */
  lemma {:induction false} RemovedSubtotals(plans: seq<TreatmentPlan>, planId: string)
    ensures SumSubtotals(Removed(plans, planId)) + SumWithId(plans, planId) == SumSubtotals(plans)
  {
    if plans != [] {
      var n := |plans| - 1;
      RemovedSubtotals(plans[..n], planId);
      assert plans == plans[..n] + [plans[n]];
      FilterConcat(plans[..n], [plans[n]], (p: TreatmentPlan) => p.id != planId);
      if plans[n].id != planId {
        assert Filter([plans[n]], (p: TreatmentPlan) => p.id != planId) == [plans[n]];
        SumAppend(Removed(plans[..n], planId), plans[n]);
      } else {
        assert Filter([plans[n]], (p: TreatmentPlan) => p.id != planId) == [];
        assert Removed(plans, planId) == Removed(plans[..n], planId);
      }
    }
  }

  /** The sum of the subtotals of the lines with `planId`. */
  function SumWithId(plans: seq<TreatmentPlan>, planId: string): int {
    if plans == [] then 0
    else SumWithId(plans[..|plans| - 1], planId) + (if plans[|plans| - 1].id == planId then plans[|plans| - 1].subtotal else 0)
  }

  /** The plan lines of the form. */
  class PlanEditor {
    var treatmentPlans: seq<TreatmentPlan>
    var globalDiscountAmount: int

    constructor (initial: seq<TreatmentPlan>)
      ensures treatmentPlans == initial && globalDiscountAmount == 0
    {
      treatmentPlans := initial;
      globalDiscountAmount := 0;
    }

    /** addTreatmentPlan: a blank line appended, named by the clock `now`. */
    method AddTreatmentPlan(now: nat)
      modifies this
      ensures treatmentPlans == old(treatmentPlans) + [BlankPlan(NatToString(now))]
      ensures globalDiscountAmount == old(globalDiscountAmount)
    {
      var newPlan := TreatmentPlan(NatToString(now), "", "", false, 0, 1, 0, 0, 0);
      treatmentPlans := treatmentPlans + [newPlan];
    }

    /** removeTreatmentPlan: every line with the id is dropped. */
    method RemoveTreatmentPlan(planId: string)
      modifies this
      ensures treatmentPlans == Removed(old(treatmentPlans), planId)
      ensures globalDiscountAmount == old(globalDiscountAmount)
    {
      treatmentPlans := Filter(treatmentPlans, (p: TreatmentPlan) => p.id != planId);
    }

    /** updateTreatmentPlan: the lines with the id are edited, in place in the list; the others are kept. */
    method UpdateTreatmentPlan(planId: string, edit: PlanEdit)
      modifies this
      ensures treatmentPlans == EditedPlans(old(treatmentPlans), planId, edit)
      ensures globalDiscountAmount == old(globalDiscountAmount)
    {
      var next := EditAll(treatmentPlans, planId, edit);
      treatmentPlans := next;
    }
  }

  /** Removing a freshly added line restores the list, when its id was not in use. */
  lemma RemoveUndoesAdd(plans: seq<TreatmentPlan>, id: string)
    requires forall i | 0 <= i < |plans| :: plans[i].id != id
    ensures Removed(plans + [BlankPlan(id)], id) == plans
  {
    FilterConcat(plans, [BlankPlan(id)], (p: TreatmentPlan) => p.id != id);
    FilterKeepsAll(plans, (p: TreatmentPlan) => p.id != id);
    assert Filter([BlankPlan(id)], (p: TreatmentPlan) => p.id != id) == [];
  }
}
