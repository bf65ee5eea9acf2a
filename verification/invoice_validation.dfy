/** validate_invoice of app/validation/validator.py, and what its acceptance means for
    the voucher built afterwards. */
module InvoiceValidation {
  import opened Wrappers
  import opened Rounding
  import opened Amounts
  import V = InvoiceVoucher

  const TOLERANCE := 100

  /** 0 stands for an absent number; sequences are chains of alternative fields. */
  datatype Line = Line(
    tax: seq<real>,
    cgst: real,
    sgst: real,
    igst: real,
    subtotals: seq<real>,
    price: Option<real>,
    quantity: Option<real>
  )

  datatype Payload = Payload(
    hasId: bool,
    hasCustomer: bool,
    creditNote: bool,
    grandTotals: seq<real>,
    grandTotalCamel: real,
    subtotal: real,
    otherSubtotals: seq<real>,
    taxAmount: real,
    tax: real,
    gstAmount: real,
    vat: real,
    taxTotal: real,
    totalTax: real,
    vatAmount: real,
    taxAmountCamel: real,
    cgst: seq<real>,
    sgst: seq<real>,
    igst: seq<real>,
    charges: seq<real>,
    discounts: seq<real>,
    lines: seq<Line>
  )

  datatype Verdict = Accepted | NoId | NoCustomer | NotPositive | MathFailure

  function GrandTotal(p: Payload): real {
    FirstNonZero(p.grandTotals, p.grandTotalCamel)
  }

  function HeadSum(p: Payload): real {
    FirstNonZero(p.cgst, 0.0) + FirstNonZero(p.sgst, 0.0) + FirstNonZero(p.igst, 0.0)
  }

  function DirectTax(p: Payload): real {
    FirstNonZero([p.taxAmount, p.tax, p.vat, p.taxTotal, p.totalTax, p.gstAmount, p.vatAmount, p.taxAmountCamel], 0.0)
  }

  function LineTax(l: Line): real {
    FirstNonZero(l.tax, l.cgst + l.sgst + l.igst)
  }

  function LineSubtotal(l: Line): real {
    var s := FirstNonZero(l.subtotals, 0.0);
    if s == 0.0 && l.price.Some? && l.quantity.Some? then l.price.value * l.quantity.value else s
  }

  function LineTaxes(lines: seq<Line>): seq<real> {
    seq(|lines|, i requires 0 <= i < |lines| => LineTax(lines[i]))
  }

  function LineSubtotals(lines: seq<Line>): seq<real> {
    seq(|lines|, i requires 0 <= i < |lines| => LineSubtotal(lines[i]))
  }

  function StatedTax(p: Payload): real {
    var direct := if DirectTax(p) != 0.0 then DirectTax(p) else HeadSum(p);
    if direct == 0.0 && Total(LineTaxes(p.lines)) > 0.0 then Total(LineTaxes(p.lines)) else direct
  }

  function StatedSubtotal(p: Payload): real {
    var direct := FirstNonZero([p.subtotal] + p.otherSubtotals, 0.0);
    if direct == 0.0 && Total(LineSubtotals(p.lines)) > 0.0 then Total(LineSubtotals(p.lines)) else direct
  }

  function Extras(p: Payload): real {
    FirstNonZero(p.charges, 0.0) - FirstNonZero(p.discounts, 0.0)
  }

  function Max0(x: real): real {
    if x > 0.0 then x else 0.0
  }

  function JudgedSubtotal(p: Payload): real {
    if StatedSubtotal(p) == 0.0 && GrandTotal(p) > 0.0
    then Max0(GrandTotal(p) - StatedTax(p) - FirstNonZero(p.charges, 0.0) + FirstNonZero(p.discounts, 0.0))
    else StatedSubtotal(p)
  }

  function JudgedTax(p: Payload): real {
    var base := JudgedSubtotal(p) + Extras(p);
    if StatedTax(p) == 0.0 && GrandTotal(p) > base then Round(GrandTotal(p) - base) as real else StatedTax(p)
  }

  function Judge(p: Payload): Verdict {
    if !p.hasId then NoId
    else if !p.hasCustomer then NoCustomer
    else if !p.creditNote && GrandTotal(p) <= 0.0 then NotPositive
    else if Size(Round(JudgedSubtotal(p) + JudgedTax(p) + Extras(p)) - Round(GrandTotal(p))) > TOLERANCE then MathFailure
    else Accepted
  }

  lemma OneMoreLine(lines: seq<Line>, i: nat)
    requires i < |lines|
    ensures Total(LineTaxes(lines[..i + 1])) == Total(LineTaxes(lines[..i])) + LineTax(lines[i])
    ensures Total(LineSubtotals(lines[..i + 1])) == Total(LineSubtotals(lines[..i])) + LineSubtotal(lines[i])
  {
    hide LineTax, LineSubtotal;
    assert LineTaxes(lines[..i + 1])[..i] == LineTaxes(lines[..i]);
    assert LineSubtotals(lines[..i + 1])[..i] == LineSubtotals(lines[..i]);
  }

  method SumLines(lines: seq<Line>) returns (taxes: real, subtotals: real)
    ensures taxes == Total(LineTaxes(lines)) && subtotals == Total(LineSubtotals(lines))
  {
    hide LineTax, LineSubtotal, LineTaxes, LineSubtotals;
    taxes, subtotals := 0.0, 0.0;
    NoLines();
    for i := 0 to |lines|
      invariant taxes == Total(LineTaxes(lines[..i])) && subtotals == Total(LineSubtotals(lines[..i]))
    {
      OneMoreLine(lines, i);
      taxes, subtotals := taxes + LineTax(lines[i]), subtotals + LineSubtotal(lines[i]);
    }
    assert lines[..|lines|] == lines;
  }

  lemma NoLines()
    ensures Total(LineTaxes([])) == 0.0 && Total(LineSubtotals([])) == 0.0
  {
  }

  method ValidateInvoice(p: Payload) returns (verdict: Verdict)
    ensures verdict == Judge(p)
  {
    hide Round, FirstNonZero, LineTaxes, LineSubtotals, Total;
    if !p.hasId {
      return NoId;
    }
    if !p.hasCustomer {
      return NoCustomer;
    }
    var grandTotal := GrandTotal(p);
    var subtotal := FirstNonZero([p.subtotal] + p.otherSubtotals, 0.0);
    var tax := DirectTax(p);
    if tax == 0.0 {
      tax := HeadSum(p);
    }
    var lineTaxes, lineSubtotals := SumLines(p.lines);
    if tax == 0.0 && lineTaxes > 0.0 {
      tax := lineTaxes;
    }
    if subtotal == 0.0 && lineSubtotals > 0.0 {
      subtotal := lineSubtotals;
    }
    var charges, discount := FirstNonZero(p.charges, 0.0), FirstNonZero(p.discounts, 0.0);
    if subtotal == 0.0 && grandTotal > 0.0 {
      subtotal := Max0(grandTotal - tax - charges + discount);
    }
    if !p.creditNote && grandTotal <= 0.0 {
      return NotPositive;
    }
    if tax == 0.0 && grandTotal > subtotal + charges - discount {
      tax := Round(grandTotal - (subtotal + charges - discount)) as real;
    }
    assert subtotal + charges - discount == subtotal + Extras(p);
    assert subtotal + tax + charges - discount == subtotal + tax + Extras(p);
    if Size(Round(subtotal + tax + charges - discount) - Round(grandTotal)) > TOLERANCE {
      return MathFailure;
    }
    return Accepted;
  }

  // ---------- what acceptance buys ----------

  /** The invoice the builder reads from the same payload. */
  function AsInvoice(p: Payload, customerState: string, companyState: string): V.Invoice {
    V.Invoice(p.grandTotals, p.subtotal, p.cgst, p.sgst, p.igst, [p.taxAmount, p.tax, p.gstAmount], [], customerState, companyState)
  }

  /** No items, charges or discount, and a positive subtotal. */
  predicate Plain(p: Payload) {
    p.lines == [] && FirstNonZero(p.charges, 0.0) == 0.0 && FirstNonZero(p.discounts, 0.0) == 0.0
    && p.subtotal > 0.0 && p.grandTotalCamel == 0.0
  }

  /** The tax fields the two functions read say the same, and none is negative. */
  predicate TaxesAgree(p: Payload) {
    var stated := FirstNonZero([p.taxAmount, p.tax, p.gstAmount], 0.0);
    && DirectTax(p) == stated && stated >= 0.0
    && FirstNonZero(p.cgst, 0.0) >= 0.0 && FirstNonZero(p.sgst, 0.0) >= 0.0 && FirstNonZero(p.igst, 0.0) >= 0.0
    && (stated == 0.0 || HeadSum(p) == 0.0 || stated == HeadSum(p))
  }

  lemma WhatBuilderReads(p: Payload, customerState: string, companyState: string)
    requires Plain(p)
    ensures var i := AsInvoice(p, customerState, companyState);
            && V.GrandTotal(i) == GrandTotal(p) && V.Subtotal(i) == p.subtotal == JudgedSubtotal(p)
            && V.HeadsOf(i) == V.Heads(FirstNonZero(p.cgst, 0.0), FirstNonZero(p.sgst, 0.0), FirstNonZero(p.igst, 0.0),
                                       FirstNonZero([p.taxAmount, p.tax, p.gstAmount], 0.0))
  {
  }

  lemma RoundOffOf(p: Payload, customerState: string, companyState: string)
    requires Plain(p)
    ensures var i := AsInvoice(p, customerState, companyState);
            V.VoucherOf(i).roundOff == Round(GrandTotal(p) - p.subtotal - V.TaxAmount(GrandTotal(p), p.subtotal, V.HeadsOf(i)))
  {
    WhatBuilderReads(p, customerState, companyState);
    hide Round, V.TaxAmount, V.HeadsOf, V.Subtotal, V.GrandTotal, GrandTotal;
  }

  /** Two roundings apart by at most 100 paise were at most 101 apart before. */
  lemma CloseBeforeRounding(x: real, y: real)
    requires Size(Round(x) - Round(y)) <= TOLERANCE
    ensures -101.0 <= x - y <= 101.0
    ensures Whole(x) && Whole(y) ==> -100.0 <= x - y <= 100.0
  {
  }

  lemma RoundInRange(x: real, bound: nat)
    requires -(bound as real) <= x <= bound as real
    ensures Size(Round(x)) <= bound
  {
  }

  /** 100 is even, so the half-way amounts still round to it. */
  lemma RoundWithinTolerance(x: real)
    ensures Size(Round(x)) <= TOLERANCE <==> -100.5 <= x <= 100.5
  {
  }

  /** The tax the voucher prints: the builder rounds the sum of the heads, the validator
      does not. */
  function PrintedTax(p: Payload): real {
    if HeadSum(p) != 0.0 then Round(HeadSum(p)) as real else JudgedTax(p)
  }

  /** What an accepted plain invoice leaves over for the Round Off. */
  function Unexplained(p: Payload): real {
    GrandTotal(p) - (p.subtotal + PrintedTax(p))
  }

  /** Up to that rounding the validator's tax is the builder's. */
  lemma LeftOver(p: Payload, customerState: string, companyState: string)
    requires Plain(p) && TaxesAgree(p)
    ensures var t := V.TaxAmount(GrandTotal(p), p.subtotal, V.HeadsOf(AsInvoice(p, customerState, companyState)));
            GrandTotal(p) - p.subtotal - t == Unexplained(p)
    ensures HeadSum(p) != 0.0 ==> JudgedTax(p) == HeadSum(p)
  {
    WhatBuilderReads(p, customerState, companyState);
    NoLines();
    var left := GrandTotal(p) - p.subtotal;
    RoundOfWhole(0);
    RoundIsMonotone(0.0, HeadSum(p));
    if left <= 0.0 {
      RoundIsMonotone(left, 0.0);
    } else {
      RoundIsMonotone(0.0, left);
    }
    hide Round, DirectTax, V.HeadsOf;
  }

  /** An accepted plain invoice whose tax fields agree gets a Round Off of at most one
      rupee exactly when at most 100.5 paise are unexplained, so whenever its amounts are
      whole paise; it never gets more than one rupee and two paise, or one rupee and a
      paisa when its heads sum to whole paise. */
  lemma RoundOffIsBounded(p: Payload, customerState: string, companyState: string)
    requires Judge(p) == Accepted && Plain(p) && TaxesAgree(p)
    ensures var off := V.VoucherOf(AsInvoice(p, customerState, companyState)).roundOff;
            && (Size(off) <= TOLERANCE <==> -100.5 <= Unexplained(p) <= 100.5)
            && (Whole(GrandTotal(p)) && Whole(p.subtotal + JudgedTax(p)) && Whole(HeadSum(p)) ==> Size(off) <= TOLERANCE)
            && (Whole(HeadSum(p)) ==> Size(off) <= TOLERANCE + 1)
            && Size(off) <= TOLERANCE + 2
  {
    RoundOffOf(p, customerState, companyState);
    LeftOver(p, customerState, companyState);
    WhatBuilderReads(p, customerState, companyState);
    RoundIsNearest(HeadSum(p));
    if Whole(HeadSum(p)) {
      RoundOfWholeReal(HeadSum(p));
    }
    hide Round, V.TaxAmount, V.HeadsOf, V.Subtotal, V.GrandTotal, V.VoucherOf, GrandTotal, HeadSum, JudgedSubtotal, JudgedTax,
         FirstNonZero, TaxesAgree, DirectTax, AsInvoice;
    var total, judged := GrandTotal(p), p.subtotal + JudgedTax(p);
    assert judged + Extras(p) == judged;
    CloseBeforeRounding(judged, total);
    SizesOf(Unexplained(p));
  }

  lemma SizesOf(x: real)
    ensures Size(Round(x)) <= TOLERANCE <==> -100.5 <= x <= 100.5
    ensures -101.0 <= x <= 101.0 ==> Size(Round(x)) <= TOLERANCE + 1
    ensures -101.5 <= x <= 101.5 ==> Size(Round(x)) <= TOLERANCE + 2
  {
    RoundWithinTolerance(x);
    if -101.0 <= x <= 101.0 {
      RoundInRange(x, TOLERANCE + 1);
    }
    if -101.5 <= x <= 101.5 {
      RoundInRange(x, TOLERANCE + 2);
    }
    hide Round;
  }

  /** A tax head and a subtotal, and a header of 102.5 paise. */
  predicate HalfPaise(p: Payload, subtotal: real, head: real) {
    && p.hasId && p.hasCustomer && p.lines == [] && p.charges == [] && p.discounts == []
    && p.grandTotals == [102.5] && p.subtotal == subtotal > 0.0 && p.grandTotalCamel == 0.0
    && p.cgst == [head] && head > 0.0 && p.sgst == [] && p.igst == [] && DirectTax(p) == 0.0
    && FirstNonZero([p.taxAmount, p.tax, p.gstAmount], 0.0) == 0.0
  }

  lemma HalfPaiseFields(p: Payload, subtotal: real, head: real)
    requires HalfPaise(p, subtotal, head)
    ensures GrandTotal(p) == 102.5 && HeadSum(p) == head && JudgedSubtotal(p) == subtotal
    ensures JudgedTax(p) == head && Extras(p) == 0.0 && Plain(p) && TaxesAgree(p)
  {
  }

  lemma HalfPaiseRoundOff(p: Payload, subtotal: real, head: real)
    requires HalfPaise(p, subtotal, head)
    ensures V.VoucherOf(AsInvoice(p, "", "")).roundOff == Round(102.5 - subtotal - Round(head) as real)
    ensures Judge(p) == Accepted <==> Size(Round(subtotal + head) - Round(102.5)) <= TOLERANCE
  {
    hide GrandTotal, HeadSum, JudgedSubtotal, JudgedTax, Extras, Plain, TaxesAgree, V.VoucherOf, V.TaxAmount, V.HeadsOf, AsInvoice,
         V.GrandTotal, V.Subtotal, Round;
    HalfPaiseFields(p, subtotal, head);
    RoundOffOf(p, "", "");
    LeftOver(p, "", "");
    assert 102.5 - (subtotal + Round(head) as real) == 102.5 - subtotal - Round(head) as real;
  }

  /** The extra paisa is real: two half-paise amounts reach it. */
  lemma HalfPaiseReachOneMore(p: Payload)
    requires HalfPaise(p, 0.5, 1.0)
    ensures Judge(p) == Accepted && Whole(HeadSum(p))
    ensures V.VoucherOf(AsInvoice(p, "", "")).roundOff == TOLERANCE + 1
  {
    HalfPaiseFields(p, 0.5, 1.0);
    HalfPaiseRoundOff(p, 0.5, 1.0);
    assert (1.5).Floor == 1 && (102.5).Floor == 102 && (1.0).Floor == 1;
    RoundOfWhole(101);
    hide Judge, V.VoucherOf, AsInvoice, HalfPaise, HeadSum;
  }

  /** And so is the second, when one of them is a tax head. */
  lemma HalfPaiseHeadReachesTwoMore(p: Payload)
    requires HalfPaise(p, 1.0, 0.5)
    ensures Judge(p) == Accepted
    ensures V.VoucherOf(AsInvoice(p, "", "")).roundOff == TOLERANCE + 2
  {
    HalfPaiseRoundOff(p, 1.0, 0.5);
    assert (1.5).Floor == 1 && (102.5).Floor == 102 && (0.5).Floor == 0 && (101.5).Floor == 101;
    hide Judge, V.VoucherOf, AsInvoice, HalfPaise;
  }

  // ---------- charges and discounts ----------

  /** An itemless payload with a subtotal and a tax is accepted exactly when subtotal, tax
      and charges less the discount come within 100 paise of a grand total that is
      positive, or of any on a credit note. */
  lemma ItemlessIsAcceptedIff(p: Payload)
    requires p.hasId && p.hasCustomer && p.lines == [] && p.subtotal != 0.0 && (DirectTax(p) != 0.0 || HeadSum(p) != 0.0)
    ensures var tax := if DirectTax(p) != 0.0 then DirectTax(p) else HeadSum(p);
            var sum := p.subtotal + tax + FirstNonZero(p.charges, 0.0) - FirstNonZero(p.discounts, 0.0);
            var total := FirstNonZero(p.grandTotals, p.grandTotalCamel);
            Judge(p) == Accepted <==> (p.creditNote || total > 0.0) && -100 <= Round(sum) - Round(total) <= 100
  {
    NoLines();
    var tax := if DirectTax(p) != 0.0 then DirectTax(p) else HeadSum(p);
    var charges, discount := FirstNonZero(p.charges, 0.0), FirstNonZero(p.discounts, 0.0);
    assert p.subtotal + tax + charges - discount == p.subtotal + tax + (charges - discount);
    hide Round, DirectTax, HeadSum;
  }

  /** An itemised payload without a subtotal or a tax of its own is judged by the sums over
      its lines. */
  lemma ItemisedIsAcceptedIff(p: Payload)
    requires p.hasId && p.hasCustomer && p.subtotal == 0.0 && FirstNonZero(p.otherSubtotals, 0.0) == 0.0
    requires DirectTax(p) == 0.0 && HeadSum(p) == 0.0 && Total(LineSubtotals(p.lines)) > 0.0 && Total(LineTaxes(p.lines)) > 0.0
    ensures var sum := Total(LineSubtotals(p.lines)) + Total(LineTaxes(p.lines)) + FirstNonZero(p.charges, 0.0) - FirstNonZero(p.discounts, 0.0);
            var total := FirstNonZero(p.grandTotals, p.grandTotalCamel);
            Judge(p) == Accepted <==> (p.creditNote || total > 0.0) && -100 <= Round(sum) - Round(total) <= 100
  {
    assert ([p.subtotal] + p.otherSubtotals)[1..] == p.otherSubtotals;
    var subtotal, tax := Total(LineSubtotals(p.lines)), Total(LineTaxes(p.lines));
    var charges, discount := FirstNonZero(p.charges, 0.0), FirstNonZero(p.discounts, 0.0);
    assert subtotal + tax + charges - discount == subtotal + tax + (charges - discount);
    hide Round, DirectTax, HeadSum, LineSubtotals, LineTaxes, Total;
  }

  /** A line counts with its own subtotal or else price times quantity, and with its own tax
      or else its three heads. */
  lemma OneLineIsAcceptedIff(p: Payload, l: Line, amount: real, tax: real)
    requires p.hasId && p.hasCustomer && p.subtotal == 0.0 && FirstNonZero(p.otherSubtotals, 0.0) == 0.0
    requires DirectTax(p) == 0.0 && HeadSum(p) == 0.0 && p.lines == [l] && amount > 0.0 && tax > 0.0
    requires if FirstNonZero(l.subtotals, 0.0) != 0.0 then amount == FirstNonZero(l.subtotals, 0.0)
             else l.price.Some? && l.quantity.Some? && amount == l.price.value * l.quantity.value
    requires tax == if FirstNonZero(l.tax, 0.0) != 0.0 then FirstNonZero(l.tax, 0.0) else l.cgst + l.sgst + l.igst
    ensures var sum := amount + tax + FirstNonZero(p.charges, 0.0) - FirstNonZero(p.discounts, 0.0);
            var total := FirstNonZero(p.grandTotals, p.grandTotalCamel);
            Judge(p) == Accepted <==> (p.creditNote || total > 0.0) && -100 <= Round(sum) - Round(total) <= 100
  {
    assert LineSubtotal(l) == amount;
    FirstOrElse(l.tax, l.cgst + l.sgst + l.igst);
    assert LineTax(l) == tax;
    hide LineSubtotal, LineTax;
    assert LineSubtotals([l]) == [amount] && LineTaxes([l]) == [tax];
    assert [amount][..0] == [] && [tax][..0] == [];
    assert Total([amount]) == amount && Total([tax]) == tax;
    hide Judge, Round, DirectTax, HeadSum;
    ItemisedIsAcceptedIff(p);
  }

  lemma {:induction false} FirstOrElse(xs: seq<real>, otherwise: real)
    ensures FirstNonZero(xs, otherwise) == if FirstNonZero(xs, 0.0) != 0.0 then FirstNonZero(xs, 0.0) else otherwise
  {
    if xs != [] {
      FirstOrElse(xs[1..], otherwise);
    }
  }
}
