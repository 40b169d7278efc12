/**
 * The accounting screen's money arithmetic in integer yen: the subtotal and
 * the floored tax of each line, the insurance share taken off, the amount
 * billed and the change; and the screen's edits of the bill (adding a
 * manual line, deleting a line, completing the payment).  JavaScript's NaN,
 * which a price or an amount received without digits produces, is kept.
 */
module AccountingDetail {
  import opened Common

  /** A JavaScript number as the screen uses it: a whole number of yen, or NaN. */
  datatype JsNumber = Finite(value: int) | NaN

  function Plus(a: JsNumber, b: JsNumber): (r: JsNumber)
    ensures r.Finite? <==> a.Finite? && b.Finite?
  {
    if a.Finite? && b.Finite? then Finite(a.value + b.value) else NaN
  }

  function Times(a: JsNumber, k: int): (r: JsNumber)
    ensures r.Finite? <==> a.Finite?
  {
    if a.Finite? then Finite(a.value * k) else NaN
  }

  /** Math.floor(a * percent / 100). */
  function FloorPercent(a: JsNumber, percent: int): (r: JsNumber)
    ensures r.Finite? <==> a.Finite?
    ensures a.Finite? ==> r.value * 100 <= a.value * percent < r.value * 100 + 100
  {
    if a.Finite? then Finite(a.value * percent / 100) else NaN
  }

  // ---------------------------------------------------------------------------
  // parseInt(text, 10)

  /** The longest prefix of decimal digits. */
  function LeadingDigits(s: string): (r: string)
    ensures |r| <= |s| && r == s[..|r|]
    ensures forall i | 0 <= i < |r| :: IsDigit(r[i])
    ensures |r| == |s| || !IsDigit(s[|r|])
  {
    if s != [] && IsDigit(s[0]) then [s[0]] + LeadingDigits(s[1..]) else []
  }

  /**
   * parseInt with radix 10: leading white space is skipped, a sign is
   * read, then the digits up to the first non-digit; no digit at all is
   * NaN.
   */
  function ParseInt(s: string): JsNumber {
    var t := TrimStart(s);
    var signed := t != [] && (t[0] == '+' || t[0] == '-');
    var digits := LeadingDigits(if signed then t[1..] else t);
    if digits == [] then NaN
    else if signed && t[0] == '-' then Finite(-(DigitsValue(digits) as int))
    else Finite(DigitsValue(digits))
  }

  /** parseInt gives a number only for a text holding a digit, and a negative one only for a text holding a minus sign. */
  lemma ParseIntNeedsDigit(s: string)
    ensures ParseInt(s).Finite? ==> exists i | 0 <= i < |s| :: IsDigit(s[i])
    ensures ParseInt(s).Finite? && ParseInt(s).value < 0 ==> exists i | 0 <= i < |s| :: s[i] == '-'
  {
    var t := TrimStart(s);
    var signed := t != [] && (t[0] == '+' || t[0] == '-');
    var digits := LeadingDigits(if signed then t[1..] else t);
    if digits != [] {
      var k := |s| - |t| + (if signed then 1 else 0);
      assert s[k] == digits[0];
      if signed && t[0] == '-' {
        assert s[|s| - |t|] == '-';
      }
    }
  }

  /** A text of digits alone reads as the number they spell. */
  lemma ParseIntOfDigits(s: string)
    requires s != [] && forall i | 0 <= i < |s| :: IsDigit(s[i])
    ensures ParseInt(s) == Finite(DigitsValue(s))
  {
    DigitNotSpace(s);
    DigitsPrefix(s);
    ParseIntUnsigned(s);
  }

  /** Without white space or a sign in front, parseInt reads the leading digits. */
  lemma ParseIntUnsigned(s: string)
    requires TrimStart(s) == s && s != [] && s[0] != '+' && s[0] != '-'
    requires LeadingDigits(s) != []
    ensures ParseInt(s) == Finite(DigitsValue(LeadingDigits(s)))
  {
  }

  /** A text starting with a digit has no leading white space and no sign. */
  lemma DigitNotSpace(s: string)
    requires s != [] && IsDigit(s[0])
    ensures TrimStart(s) == s && s[0] != '+' && s[0] != '-'
  {
    assert !IsJsSpace(s[0]);
  }

  /** parseInt reads back the decimal text of a number. */
  lemma ParseIntOfDecimal(n: nat)
    ensures ParseInt(NatToString(n)) == Finite(n)
  {
    ParseIntOfDigits(NatToString(n));
    NatToStringRoundTrip(n);
  }

  lemma {:induction false} DigitsPrefix(s: string)
    requires forall i | 0 <= i < |s| :: IsDigit(s[i])
    ensures LeadingDigits(s) == s
  {
    if s != [] {
      DigitsPrefix(s[1..]);
    }
  }

  /** Text without digits, such as the empty string, is NaN. */
  lemma ParseIntEmpty()
    ensures ParseInt("") == NaN
  {
  }

  /** parseInt stops at the first character that is not a digit: what follows the number is ignored. */
  lemma ParseIntIgnoresRest(n: nat, rest: string)
    requires rest == [] || !IsDigit(rest[0])
    ensures ParseInt(NatToString(n) + rest) == Finite(n)
  {
    var s := NatToString(n);
    var t := s + rest;
    assert t[0] == s[0] && !IsJsSpace(t[0]);
    assert TrimStart(t) == t;
    DigitsThenRest(s, rest);
    NatToStringRoundTrip(n);
  }

  lemma {:induction false} DigitsThenRest(s: string, rest: string)
    requires forall i | 0 <= i < |s| :: IsDigit(s[i])
    requires rest == [] || !IsDigit(rest[0])
    ensures LeadingDigits(s + rest) == s
  {
    if s == [] {
      assert s + rest == rest;
    } else {
      assert (s + rest)[1..] == s[1..] + rest;
      DigitsThenRest(s[1..], rest);
    }
  }

  /** A minus sign before the digits negates the number. */
  lemma ParseIntNegative(n: nat)
    ensures ParseInt("-" + NatToString(n)) == Finite(-(n as int))
  {
    var s := NatToString(n);
    var t := "-" + s;
    assert !IsJsSpace(t[0]);
    assert TrimStart(t) == t;
    assert t[1..] == s;
    DigitsPrefix(s);
    NatToStringRoundTrip(n);
  }

  // ---------------------------------------------------------------------------
  // The bill

  /** An AccountingItem; `taxPercent` is the tax rate in percent (10 or 8). */
  datatype Item = Item(
    id: string,
    category: string,
    name: string,
    unitPrice: JsNumber,
    quantity: int,
    taxPercent: int,
    isInsuranceApplicable: bool,
    source: string)

  /** What was paid, as the completed bill records it. */
  datatype PaymentInfo = PaymentInfo(
    subtotal: JsNumber,
    taxTotal: JsNumber,
    totalAmount: JsNumber,
    insuranceAmount: JsNumber,
    discountAmount: int,
    billingAmount: JsNumber,
    receivedAmount: JsNumber,
    changeAmount: JsNumber,
    paymentMethod: string,
    insurancePercent: Option<int>)

  datatype Accounting = Accounting(
    id: string,
    ownerName: string,
    petName: string,
    status: string,
    items: seq<Item>,
    payment: Option<PaymentInfo>)

  /** The amounts the screen shows. */
  datatype Calculation = Calculation(
    subtotal: JsNumber,
    taxTotal: JsNumber,
    totalAmount: JsNumber,
    insuranceAmount: JsNumber,
    billingAmount: JsNumber,
    received: JsNumber,
    changeAmount: JsNumber)

  /** A line's amount before tax: unit price times quantity. */
  function LineAmount(item: Item): JsNumber {
    Times(item.unitPrice, item.quantity)
  }

  /** A line's tax, floored on its own. */
  function LineTax(item: Item): JsNumber {
    FloorPercent(LineAmount(item), item.taxPercent)
  }

  /** Every line has a numeric price. */
  predicate AllPriced(items: seq<Item>) {
    forall i | 0 <= i < |items| :: items[i].unitPrice.Finite?
  }

  /** The lines before the last one are priced when all the lines are. */
  lemma PricedPrefix(items: seq<Item>)
    requires items != []
    ensures AllPriced(items) <==> AllPriced(items[..|items| - 1]) && items[|items| - 1].unitPrice.Finite?
  {
    assert forall i | 0 <= i < |items| - 1 :: items[..|items| - 1][i] == items[i];
  }

  /** The sum of the line amounts, added in order: a number exactly when every line is priced. */
  function Subtotal(items: seq<Item>): (r: JsNumber)
    ensures r.Finite? <==> AllPriced(items)
  {
    if items == [] then Finite(0)
    else
      PricedPrefix(items);
      Plus(Subtotal(items[..|items| - 1]), LineAmount(items[|items| - 1]))
  }

  /** The sum of the line taxes, added in order: a number exactly when every line is priced. */
  function TaxTotal(items: seq<Item>): (r: JsNumber)
    ensures r.Finite? <==> AllPriced(items)
  {
    if items == [] then Finite(0)
    else
      PricedPrefix(items);
      Plus(TaxTotal(items[..|items| - 1]), LineTax(items[|items| - 1]))
  }

  /** The exact sum of price × quantity, and of price × quantity × rate. */
  function ExactAmount(items: seq<Item>): int
    requires AllPriced(items)
  {
    if items == [] then 0
    else ExactAmount(items[..|items| - 1]) + items[|items| - 1].unitPrice.value * items[|items| - 1].quantity
  }

  function ExactTaxTimes100(items: seq<Item>): int
    requires AllPriced(items)
  {
    if items == [] then 0
    else
      var last := items[|items| - 1];
      ExactTaxTimes100(items[..|items| - 1]) + last.unitPrice.value * last.quantity * last.taxPercent
  }

  /** A single line without a price makes the whole subtotal and tax NaN. */
  lemma {:induction false} UnpricedLinePoisons(items: seq<Item>, k: nat)
    requires k < |items| && items[k].unitPrice == NaN
    ensures Subtotal(items) == NaN && TaxTotal(items) == NaN
  {
    var n := |items| - 1;
    if k < n {
      assert items[..n][k] == items[k];
      UnpricedLinePoisons(items[..n], k);
    }
  }

  /**
   * With every line priced, the subtotal is the exact sum, and the tax
   * loses less than one yen per line to flooring: the exact tax exceeds
   * the tax total by at most 0.99 yen per line.
   */
  lemma {:induction false} TaxRounding(items: seq<Item>)
    requires AllPriced(items)
    ensures Subtotal(items) == Finite(ExactAmount(items))
    ensures TaxTotal(items).Finite?
    ensures TaxTotal(items).value * 100 <= ExactTaxTimes100(items) <= TaxTotal(items).value * 100 + 99 * |items|
  {
    if items != [] {
      var n := |items| - 1;
      assert AllPriced(items[..n]) by {
        assert forall i | 0 <= i < n :: items[..n][i] == items[i];
      }
      TaxRounding(items[..n]);
      assert items[n].unitPrice.Finite?;
    }
  }

  /** At a tax rate of at most ten percent on non-negative lines, the tax is at most a tenth of the subtotal. */
  lemma {:induction false} TaxAtMostTenth(items: seq<Item>)
    requires AllPriced(items)
    requires forall i | 0 <= i < |items| :: 0 <= items[i].taxPercent <= 10 && items[i].unitPrice.value * items[i].quantity >= 0
    ensures ExactTaxTimes100(items) <= ExactAmount(items) * 10
  {
    if items != [] {
      var n := |items| - 1;
      assert forall i | 0 <= i < n :: items[..n][i] == items[i];
      TaxAtMostTenth(items[..n]);
      var last := items[n];
      var amount := last.unitPrice.value * last.quantity;
      assert amount * last.taxPercent <= amount * 10 by {
        assert amount >= 0 && last.taxPercent <= 10;
      }
    }
  }

  /** The lines the insurance covers. */
  function Insured(items: seq<Item>): seq<Item> {
    Filter(items, (item: Item) => item.isInsuranceApplicable)
  }

  /** The insurance share, a non-positive amount: minus the floor of the covered amount times the ratio. */
  function InsuranceAmount(items: seq<Item>, useInsurance: bool, ratioPercent: int): (r: JsNumber)
    ensures !useInsurance ==> r == Finite(0)
  {
    if useInsurance then Times(FloorPercent(Subtotal(Insured(items)), ratioPercent), -1) else Finite(0)
  }

  /** The insurance never adds to the bill, and never takes off more than the covered amount. */
  lemma InsuranceBounds(items: seq<Item>, useInsurance: bool, ratioPercent: int)
    requires 0 <= ratioPercent <= 100
    requires Subtotal(Insured(items)).Finite? && Subtotal(Insured(items)).value >= 0
    ensures InsuranceAmount(items, useInsurance, ratioPercent).Finite?
    ensures -Subtotal(Insured(items)).value <= InsuranceAmount(items, useInsurance, ratioPercent).value <= 0
  {
    var base := Subtotal(Insured(items)).value;
    assert base * ratioPercent <= base * 100;
  }

  /** The change: what was received beyond the bill, or nothing. */
  function Change(received: JsNumber, billing: JsNumber): (r: JsNumber)
    ensures r.Finite? && r.value >= 0
    ensures received.Finite? && billing.Finite? && received.value >= billing.value ==> received.value - r.value == billing.value
    ensures received.Finite? && billing.Finite? && received.value <= billing.value ==> r == Finite(0)
    ensures received.NaN? || billing.NaN? ==> r == Finite(0)
  {
    if received.Finite? && billing.Finite? && received.value > billing.value then Finite(received.value - billing.value)
    else Finite(0)
  }

  /** The amount received: the text read as an integer, an empty text as 0. */
  function Received(text: string): JsNumber {
    ParseInt(if text == "" then "0" else text)
  }

  /** The lines the insurance covers are priced when the whole bill is. */
  lemma InsuredPriced(items: seq<Item>)
    requires AllPriced(items)
    ensures AllPriced(Insured(items))
  {
    var ins := Insured(items);
    forall i | 0 <= i < |ins| ensures ins[i].unitPrice.Finite? {
      assert ins[i] in items;
    }
  }

  /**
   * The calculation as the screen defines it: the bill is a number exactly
   * when every line is priced; the total is subtotal plus tax; the bill is
   * the total less the insurance share; the change is never negative and,
   * when what was received covers the bill, makes up the difference.
   */
  function Calculated(items: seq<Item>, useInsurance: bool, ratioPercent: int, receivedText: string): (c: Calculation)
    ensures c.subtotal == Subtotal(items) && c.taxTotal == TaxTotal(items)
    ensures c.billingAmount.Finite? <==> AllPriced(items)
    ensures c.billingAmount.Finite? ==> c.insuranceAmount.Finite? && c.billingAmount.value == c.subtotal.value + c.taxTotal.value + c.insuranceAmount.value
    ensures receivedText == "" ==> c.received == Finite(0)
    ensures c.changeAmount.Finite? && c.changeAmount.value >= 0
    ensures c.billingAmount.Finite? && c.received.Finite? && c.received.value >= c.billingAmount.value ==>
              c.billingAmount.value + c.changeAmount.value == c.received.value
  {
    assert AllPriced(items) ==> AllPriced(Insured(items)) by {
      if AllPriced(items) { InsuredPriced(items); }
    }
    assert Received("") == Finite(0) by {
      ParseIntOfDecimal(0);
      assert NatToString(0) == "0";
    }
    var total := Plus(Subtotal(items), TaxTotal(items));
    var insurance := InsuranceAmount(items, useInsurance, ratioPercent);
    var billing := Plus(total, insurance);
    var received := Received(receivedText);
    Calculation(Subtotal(items), TaxTotal(items), total, insurance, billing, received, Change(received, billing))
  }

  /** An empty amount field means nothing was received: no change is due. */
  lemma EmptyReceivedGivesNoChange(items: seq<Item>, useInsurance: bool, ratioPercent: int)
    ensures Calculated(items, useInsurance, ratioPercent, "").received == Finite(0)
    ensures Calculated(items, useInsurance, ratioPercent, "").changeAmount == Finite(0) ||
            (Calculated(items, useInsurance, ratioPercent, "").billingAmount.Finite? &&
             Calculated(items, useInsurance, ratioPercent, "").billingAmount.value < 0)
  {
    ParseIntOfDecimal(0);
    assert NatToString(0) == "0";
  }

  /** With a priced bill, the amount billed plus the change is what was received, when it covers the bill. */
  lemma PaidInFull(items: seq<Item>, useInsurance: bool, ratioPercent: int, receivedText: string)
    requires Calculated(items, useInsurance, ratioPercent, receivedText).billingAmount.Finite?
    requires Received(receivedText).Finite? && Received(receivedText).value >= Calculated(items, useInsurance, ratioPercent, receivedText).billingAmount.value
    ensures Calculated(items, useInsurance, ratioPercent, receivedText).billingAmount.value
            + Calculated(items, useInsurance, ratioPercent, receivedText).changeAmount.value == Received(receivedText).value
  {
  }

  /** The `forEach` of the calculation: each line's amount and floored tax are added to the running sums. */
  method SumLines(items: seq<Item>) returns (subtotal: JsNumber, taxTotal: JsNumber)
    ensures subtotal == Subtotal(items) && taxTotal == TaxTotal(items)
  {
    subtotal := Finite(0);
    taxTotal := Finite(0);
    var i := 0;
    while i < |items|
      invariant 0 <= i <= |items|
      invariant subtotal == Subtotal(items[..i]) && taxTotal == TaxTotal(items[..i])
    {
      var item := items[i];
      var price := Times(item.unitPrice, item.quantity);
      var tax := FloorPercent(price, item.taxPercent);
      assert items[..i + 1][..i] == items[..i];
      subtotal := Plus(subtotal, price);
      taxTotal := Plus(taxTotal, tax);
      i := i + 1;
    }
    assert items[..i] == items;
  }

  /** The state of the accounting screen. */
  class AccountingScreen {
    var accounting: Option<Accounting>
    var useInsurance: bool
    var ratioPercent: int
    var receivedText: string
    var paymentMethod: string

    constructor (accounting: Option<Accounting>, useInsurance: bool, receivedText: string, paymentMethod: string)
      ensures this.accounting == accounting && this.useInsurance == useInsurance
      ensures ratioPercent == 50 && this.receivedText == receivedText && this.paymentMethod == paymentMethod
    {
      this.accounting := accounting;
      this.useInsurance := useInsurance;
      ratioPercent := 50;
      this.receivedText := receivedText;
      this.paymentMethod := paymentMethod;
    }

    /** The memoised calculation: nothing without a bill. */
    method Calculate() returns (c: Option<Calculation>)
      ensures accounting.None? <==> c.None?
      ensures c.Some? ==> c.value == Calculated(accounting.value.items, useInsurance, ratioPercent, receivedText)
    {
      if accounting.None? {
        return None;
      }
      var subtotal, taxTotal := SumLines(accounting.value.items);
      var totalAmount := Plus(subtotal, taxTotal);
      var insuranceAmount := InsuranceAmount(accounting.value.items, useInsurance, ratioPercent);
      var billingAmount := Plus(totalAmount, insuranceAmount);
      var received := Received(receivedText);
      var changeAmount := Change(received, billingAmount);
      return Some(Calculation(subtotal, taxTotal, totalAmount, insuranceAmount, billingAmount, received, changeAmount));
    }

    /**
     * handleAddItem: with a bill, a name and a price text, one manual line
     * is appended: the price parsed, quantity 1, ten percent tax, no
     * insurance.  `now` is the clock, which names the line.
     */
    method AddItem(name: string, priceText: string, category: string, now: nat) returns (added: Option<Item>)
      modifies this
      ensures added.Some? <==> old(accounting).Some? && name != "" && priceText != ""
      ensures added.None? ==> accounting == old(accounting)
      ensures added.Some? ==> added.value == Item("manual_" + NatToString(now), category, name, ParseInt(priceText), 1, 10, false, "manual")
      ensures added.Some? ==> accounting == Some(old(accounting).value.(items := old(accounting).value.items + [added.value]))
      ensures useInsurance == old(useInsurance) && ratioPercent == old(ratioPercent)
      ensures receivedText == old(receivedText) && paymentMethod == old(paymentMethod)
    {
      if accounting.None? || name == "" || priceText == "" {
        return None;
      }
      var item := Item("manual_" + NatToString(now), category, name, ParseInt(priceText), 1, 10, false, "manual");
      accounting := Some(accounting.value.(items := accounting.value.items + [item]));
      return Some(item);
    }

    /** handleDeleteItem: every line with the id is removed. */
    method DeleteItem(itemId: string)
      modifies this
      ensures old(accounting).None? ==> accounting == old(accounting)
      ensures old(accounting).Some? ==>
        accounting == Some(old(accounting).value.(items := Filter(old(accounting).value.items, (i: Item) => i.id != itemId)))
      ensures useInsurance == old(useInsurance) && ratioPercent == old(ratioPercent)
      ensures receivedText == old(receivedText) && paymentMethod == old(paymentMethod)
    {
      if accounting.None? {
        return;
      }
      accounting := Some(accounting.value.(items := Filter(accounting.value.items, (i: Item) => i.id != itemId)));
    }

    /** handleComplete: the bill is marked completed and the calculation is copied into its payment. */
    method Complete()
      modifies this
      ensures old(accounting).None? ==> accounting == old(accounting)
      ensures old(accounting).Some? ==> accounting == Some(old(accounting).value.(status := "completed",
        payment := Some(PaymentOf(Calculated(old(accounting).value.items, useInsurance, ratioPercent, receivedText),
                                  paymentMethod, if useInsurance then Some(ratioPercent) else None))))
      ensures useInsurance == old(useInsurance) && ratioPercent == old(ratioPercent)
      ensures receivedText == old(receivedText) && paymentMethod == old(paymentMethod)
    {
      var c := Calculate();
      if c.None? {
        return;
      }
      var payment := PaymentOf(c.value, paymentMethod, if useInsurance then Some(ratioPercent) else None);
      accounting := Some(accounting.value.(status := "completed", payment := Some(payment)));
    }
  }

  /** The payment record of a calculation: every amount copied, no discount. */
  function PaymentOf(c: Calculation, paymentMethod: string, insurancePercent: Option<int>): (p: PaymentInfo)
    ensures p.billingAmount == c.billingAmount && p.changeAmount == c.changeAmount && p.receivedAmount == c.received
    ensures p.discountAmount == 0
  {
    PaymentInfo(c.subtotal, c.taxTotal, c.totalAmount, c.insuranceAmount, 0, c.billingAmount, c.received,
                c.changeAmount, paymentMethod, insurancePercent)
  }

  /** Deleting a line removes exactly the lines with that id and keeps the others in order. */
  lemma DeleteRemovesOnlyThatLine(items: seq<Item>, itemId: string)
    ensures forall item :: item in Filter(items, (i: Item) => i.id != itemId) <==> item in items && item.id != itemId
    ensures IsSubsequence(Filter(items, (i: Item) => i.id != itemId), items)
  {
    FilterIsSubsequence(items, (i: Item) => i.id != itemId);
  }

  /** Adding a line adds its amount and its tax to the sums. */
  lemma AddedLineAdds(items: seq<Item>, item: Item)
    ensures Subtotal(items + [item]) == Plus(Subtotal(items), LineAmount(item))
    ensures TaxTotal(items + [item]) == Plus(TaxTotal(items), LineTax(item))
  {
    assert (items + [item])[..|items|] == items;
  }
}
