/** The amounts of build_sales_invoice_voucher_xml in
    app/connectors/tally/sales_voucher.py. */
module InvoiceVoucher {
  import opened Rounding
  import opened Amounts
  import opened Text

  /** One item line; 0 stands for an absent field. */
  datatype Line = Line(
    totalPrice: real,
    grandTotal: real,
    price: real,
    quantity: real,
    cgst: seq<real>,
    sgst: seq<real>,
    igst: seq<real>,
    tax: seq<real>
  )

  /** The sequences are chains of alternative payload fields. */
  datatype Invoice = Invoice(
    grandTotals: seq<real>,
    subtotal: real,
    cgst: seq<real>,
    sgst: seq<real>,
    igst: seq<real>,
    tax: seq<real>,
    lines: seq<Line>,
    customerState: string,
    companyState: string
  )

  datatype Heads = Heads(cgst: real, sgst: real, igst: real, tax: real)

  datatype Voucher = Voucher(party: int, income: int, inventory: seq<int>, cgst: int, sgst: int, igst: int, roundOff: int)

  function PreTax(l: Line): real {
    if l.totalPrice != 0.0 then l.totalPrice else l.price * (if l.quantity != 0.0 then l.quantity else 1.0)
  }

  /** What the inventory line prints; its fallback is not the one above. */
  function LineAmount(l: Line): real {
    if l.totalPrice != 0.0 then l.totalPrice
    else if l.grandTotal != 0.0 then l.grandTotal
    else l.price * (if l.quantity != 0.0 then l.quantity else 1.0)
  }

  function PreTaxes(lines: seq<Line>): seq<real> {
    seq(|lines|, i requires 0 <= i < |lines| => PreTax(lines[i]))
  }

  function LineAmounts(lines: seq<Line>): seq<real> {
    seq(|lines|, i requires 0 <= i < |lines| => LineAmount(lines[i]))
  }

  function GrandTotal(v: Invoice): real {
    FirstNonZero(v.grandTotals, 0.0)
  }

  function Subtotal(v: Invoice): real {
    if Total(PreTaxes(v.lines)) > 0.0 then Round(Total(PreTaxes(v.lines))) as real
    else if v.subtotal != 0.0 then v.subtotal
    else GrandTotal(v)
  }

  function HeaderHeads(v: Invoice): Heads {
    Heads(FirstNonZero(v.cgst, 0.0), FirstNonZero(v.sgst, 0.0), FirstNonZero(v.igst, 0.0), FirstNonZero(v.tax, 0.0))
  }

  const NO_HEADS := Heads(0.0, 0.0, 0.0, 0.0)

  function LineHeads(lines: seq<Line>): Heads {
    if lines == [] then NO_HEADS
    else
      var before, l := LineHeads(lines[..|lines| - 1]), lines[|lines| - 1];
      Heads(before.cgst + FirstNonZero(l.cgst, 0.0), before.sgst + FirstNonZero(l.sgst, 0.0),
            before.igst + FirstNonZero(l.igst, 0.0), before.tax + FirstNonZero(l.tax, 0.0))
  }

  function Rounded(h: Heads): Heads {
    Heads(Round(h.cgst) as real, Round(h.sgst) as real, Round(h.igst) as real, Round(h.tax) as real)
  }

  /** The header's own heads, or the rounded sums over the lines when it has none. */
  function HeadsOf(v: Invoice): Heads {
    if HeaderHeads(v) == NO_HEADS then Rounded(LineHeads(v.lines)) else HeaderHeads(v)
  }

  predicate Split(h: Heads) {
    h.cgst != 0.0 || h.sgst != 0.0 || h.igst != 0.0
  }

  function TaxAmount(grand: real, subtotal: real, h: Heads): real {
    var t := if Split(h) then Round(h.cgst + h.sgst + h.igst) as real
             else if h.tax > 0.0 then h.tax
             else Round(grand - subtotal) as real;
    if t < 0.0 then 0.0 else t
  }

  predicate InterState(v: Invoice) {
    var cust, comp := Lower(Strip(v.customerState)), Lower(Strip(v.companyState));
    cust != "" && comp != "" && cust != comp
  }

  function PrintedIfPositive(x: real): int {
    if x > 0.0 then Round(x) else 0
  }

  function VoucherFrom(grand: real, subtotal: real, h: Heads, inter: bool, inventory: seq<int>): Voucher {
    var tax := TaxAmount(grand, subtotal, h);
    var roundOff := Round(grand - subtotal - tax);
    if Split(h) then
      Voucher(-Round(grand), Round(subtotal), inventory,
              PrintedIfPositive(h.cgst), PrintedIfPositive(h.sgst), PrintedIfPositive(h.igst), roundOff)
    else if tax > 0.0 && inter then Voucher(-Round(grand), Round(subtotal), inventory, 0, 0, Round(tax), roundOff)
    else if tax > 0.0 then Voucher(-Round(grand), Round(subtotal), inventory, FirstHalf(tax), SecondHalf(tax), 0, roundOff)
    else Voucher(-Round(grand), Round(subtotal), inventory, 0, 0, 0, roundOff)
  }

  function VoucherOf(v: Invoice): Voucher {
    VoucherFrom(GrandTotal(v), Subtotal(v), HeadsOf(v), InterState(v), Printed(LineAmounts(v.lines)))
  }

  function Balance(v: Voucher): int {
    v.party + v.income + v.cgst + v.sgst + v.igst + v.roundOff
  }

  // ---------- the program ----------

  lemma OneMoreLine(lines: seq<Line>, i: nat)
    requires i < |lines|
    ensures Total(PreTaxes(lines[..i + 1])) == Total(PreTaxes(lines[..i])) + PreTax(lines[i])
    ensures Printed(LineAmounts(lines[..i + 1])) == Printed(LineAmounts(lines[..i])) + [Round(LineAmount(lines[i]))]
    ensures var before, after, l := LineHeads(lines[..i]), LineHeads(lines[..i + 1]), lines[i];
            after == Heads(before.cgst + FirstNonZero(l.cgst, 0.0), before.sgst + FirstNonZero(l.sgst, 0.0),
                           before.igst + FirstNonZero(l.igst, 0.0), before.tax + FirstNonZero(l.tax, 0.0))
  {
    hide Round, PreTax, LineAmount, FirstNonZero;
    assert lines[..i + 1][..i] == lines[..i];
    assert PreTaxes(lines[..i + 1])[..i] == PreTaxes(lines[..i]);
  }

  lemma NoLines()
    ensures Total(PreTaxes([])) == 0.0 && Printed(LineAmounts([])) == [] && LineHeads([]) == NO_HEADS
  {
  }

  method ResolveSubtotal(v: Invoice, grandTotal: real) returns (subtotal: real)
    requires grandTotal == GrandTotal(v)
    ensures subtotal == Subtotal(v)
  {
    hide Round, PreTax, Total, PreTaxes, GrandTotal;
    subtotal := v.subtotal;
    if subtotal == 0.0 {
      subtotal := grandTotal;
    }
    var itemsPreTax := 0.0;
    NoLines();
    for i := 0 to |v.lines|
      invariant itemsPreTax == Total(PreTaxes(v.lines[..i]))
    {
      OneMoreLine(v.lines, i);
      itemsPreTax := itemsPreTax + PreTax(v.lines[i]);
    }
    assert v.lines[..|v.lines|] == v.lines;
    if itemsPreTax > 0.0 {
      subtotal := Round(itemsPreTax) as real;
    }
  }

  method ResolveHeads(v: Invoice) returns (h: Heads)
    ensures h == HeadsOf(v)
  {
    hide Round, FirstNonZero, LineHeads;
    h := Heads(FirstNonZero(v.cgst, 0.0), FirstNonZero(v.sgst, 0.0), FirstNonZero(v.igst, 0.0), FirstNonZero(v.tax, 0.0));
    if h == NO_HEADS {
      NoLines();
      for i := 0 to |v.lines|
        invariant h == LineHeads(v.lines[..i])
      {
        var l := v.lines[i];
        OneMoreLine(v.lines, i);
        h := Heads(h.cgst + FirstNonZero(l.cgst, 0.0), h.sgst + FirstNonZero(l.sgst, 0.0),
                   h.igst + FirstNonZero(l.igst, 0.0), h.tax + FirstNonZero(l.tax, 0.0));
      }
      assert v.lines[..|v.lines|] == v.lines;
      h := Rounded(h);
    }
  }

  method PrintLines(lines: seq<Line>) returns (inventory: seq<int>)
    ensures inventory == Printed(LineAmounts(lines))
  {
    hide Round, LineAmount, Printed, LineAmounts;
    inventory := [];
    NoLines();
    for i := 0 to |lines|
      invariant inventory == Printed(LineAmounts(lines[..i]))
    {
      OneMoreLine(lines, i);
      inventory := inventory + [Round(LineAmount(lines[i]))];
    }
    assert lines[..|lines|] == lines;
  }

  method BuildInvoiceVoucher(v: Invoice) returns (out: Voucher)
    ensures out == VoucherOf(v)
  {
    hide Round, Subtotal, HeadsOf, Printed, LineAmounts, InterState;
    var grandTotal := GrandTotal(v);
    var subtotal := ResolveSubtotal(v, grandTotal);
    var h := ResolveHeads(v);
    var tax := 0.0;
    if Split(h) {
      tax := Round(h.cgst + h.sgst + h.igst) as real;
    } else if h.tax > 0.0 {
      tax := h.tax;
    } else {
      tax := Round(grandTotal - subtotal) as real;
    }
    if tax < 0.0 {
      tax := 0.0;
    }
    var inter := InterState(v);
    var inventory := PrintLines(v.lines);
    var cgst, sgst, igst := 0, 0, 0;
    if Split(h) {
      if h.cgst > 0.0 {
        cgst := Round(h.cgst);
      }
      if h.sgst > 0.0 {
        sgst := Round(h.sgst);
      }
      if h.igst > 0.0 {
        igst := Round(h.igst);
      }
    } else if tax > 0.0 {
      if inter {
        igst := Round(tax);
      } else {
        cgst := Round(tax / 2.0);
        sgst := Round(tax - cgst as real);
      }
    }
    var roundOff := Round(grandTotal - subtotal - tax);
    out := Voucher(-Round(grandTotal), Round(subtotal), inventory, cgst, sgst, igst, roundOff);
  }

  // ---------- double entry ----------

  predicate WholeHeads(h: Heads) {
    Whole(h.cgst) && Whole(h.sgst) && Whole(h.igst) && Whole(h.tax)
  }

  predicate NonNegative(h: Heads) {
    h.cgst >= 0.0 && h.sgst >= 0.0 && h.igst >= 0.0
  }

  function PositivePart(x: real): real {
    if x > 0.0 then x else 0.0
  }

  function Charged(h: Heads): real {
    PositivePart(h.cgst) + PositivePart(h.sgst) + PositivePart(h.igst)
  }

  function Credited(h: Heads): real {
    PositivePart(-h.cgst) + PositivePart(-h.sgst) + PositivePart(-h.igst)
  }

  /** Negative heads are left out of the entries but not out of the tax. */
  function Clash(h: Heads): real {
    if Charged(h) < Credited(h) then Charged(h) else Credited(h)
  }

  function Slip(grand: real, subtotal: real, tax: real): real {
    (-Round(grand) + Round(subtotal)) as real + tax + Round(grand - subtotal - tax) as real
  }

  lemma WholeTax(grand: real, subtotal: real, h: Heads)
    requires WholeHeads(h)
    ensures Whole(TaxAmount(grand, subtotal, h)) && TaxAmount(grand, subtotal, h) >= 0.0
  {
    WholeSum(h.cgst, h.sgst);
    WholeSum(h.cgst + h.sgst, h.igst);
  }

  /** The tax entries exceed the tax by the clash of the heads. */
  lemma TaxEntriesClash(grand: real, subtotal: real, h: Heads, inter: bool, inventory: seq<int>)
    requires WholeHeads(h)
    ensures var v := VoucherFrom(grand, subtotal, h, inter, inventory);
            (v.cgst + v.sgst + v.igst) as real == TaxAmount(grand, subtotal, h) + Clash(h)
  {
    WholeTax(grand, subtotal, h);
    WholeSum(h.cgst, h.sgst);
    WholeSum(h.cgst + h.sgst, h.igst);
    if Split(h) {
      RoundOfWholeReal(h.cgst);
      RoundOfWholeReal(h.sgst);
      RoundOfWholeReal(h.igst);
      RoundOfWholeReal(h.cgst + h.sgst + h.igst);
      hide Round;
    } else {
      RoundOfWholeReal(TaxAmount(grand, subtotal, h));
      HalvesMakeWhole(TaxAmount(grand, subtotal, h));
      hide Round, TaxAmount;
    }
  }

  /** What the entries of an invoice voucher sum to, the Round Off among them, for any
      totals and any whole tax heads: the clash of heads of opposite signs, and the slip
      of the rounded totals, at most a paisa. */
  lemma BalanceIsClashAndSlip(grand: real, subtotal: real, h: Heads, inter: bool, inventory: seq<int>)
    requires WholeHeads(h)
    ensures var slip := Slip(grand, subtotal, TaxAmount(grand, subtotal, h));
            && Balance(VoucherFrom(grand, subtotal, h, inter, inventory)) as real == Clash(h) + slip
            && -1.0 <= slip <= 1.0
  {
    var tax := TaxAmount(grand, subtotal, h);
    WholeTax(grand, subtotal, h);
    TaxEntriesClash(grand, subtotal, h, inter, inventory);
    RoundIsNearest(grand);
    RoundIsNearest(subtotal);
    RoundIsNearest(grand - subtotal - tax);
    hide Round, TaxAmount, Clash;
    var n := -Round(grand) + Round(subtotal) + tax.Floor + Round(grand - subtotal - tax);
    assert Slip(grand, subtotal, tax) == n as real && -2 < n < 2;
  }

  /** The slip is zero exactly when the two rounding rests are less than a half apart, or
      a half apart and what is left over for the Round Off is even. */
  lemma NoSlipIff(grand: real, subtotal: real, tax: real)
    requires Whole(tax)
    ensures var apart, left := Rest(grand) - Rest(subtotal), Round(grand) - Round(subtotal) - tax.Floor;
            Slip(grand, subtotal, tax) == 0.0 <==> -0.5 < apart < 0.5 || ((apart == 0.5 || apart == -0.5) && !Odd(left))
  {
    var apart, left := Rest(grand) - Rest(subtotal), Round(grand) - Round(subtotal) - tax.Floor;
    RoundBackIff(left, apart);
    assert grand - subtotal - tax == left as real + apart;
    hide Round;
  }

  /** So heads of one sign give an exact voucher on exactly that condition, whatever the
      totals, and one within a paisa otherwise. */
  lemma InvoiceBalancesIff(grand: real, subtotal: real, h: Heads, inter: bool, inventory: seq<int>)
    requires WholeHeads(h) && NonNegative(h)
    ensures var tax := TaxAmount(grand, subtotal, h);
            var apart, left := Rest(grand) - Rest(subtotal), Round(grand) - Round(subtotal) - tax.Floor;
            Balance(VoucherFrom(grand, subtotal, h, inter, inventory)) == 0
            <==> -0.5 < apart < 0.5 || ((apart == 0.5 || apart == -0.5) && !Odd(left))
    ensures Size(Balance(VoucherFrom(grand, subtotal, h, inter, inventory))) <= 1
  {
    BalanceIsClashAndSlip(grand, subtotal, h, inter, inventory);
    WholeTax(grand, subtotal, h);
    NoSlipIff(grand, subtotal, TaxAmount(grand, subtotal, h));
    hide Round, TaxAmount, VoucherFrom, Slip, Rest;
  }

  /** And whole totals are off by the clash alone, so exact if and only if no head is
      positive while another is negative. */
  lemma MixedHeadsUnbalance(grand: real, subtotal: real, h: Heads, inter: bool, inventory: seq<int>)
    requires WholeHeads(h) && Whole(grand) && Whole(subtotal)
    ensures var v := VoucherFrom(grand, subtotal, h, inter, inventory);
            && Balance(v) as real == Clash(h)
            && (Balance(v) == 0 <==> !(Charged(h) > 0.0 && Credited(h) > 0.0))
  {
    BalanceIsClashAndSlip(grand, subtotal, h, inter, inventory);
    WholeTax(grand, subtotal, h);
    NoSlipIff(grand, subtotal, TaxAmount(grand, subtotal, h));
    RoundOfWholeReal(grand);
    RoundOfWholeReal(subtotal);
    hide Round, TaxAmount, VoucherFrom, Slip, Whole;
  }

  /** So for whole-paise totals and heads of one sign every invoice voucher is exact. */
  lemma WholeInvoiceBalances(v: Invoice)
    requires Whole(GrandTotal(v)) && Whole(v.subtotal) && WholeHeads(HeadsOf(v)) && NonNegative(HeadsOf(v))
    ensures Balance(VoucherOf(v)) == 0
  {
    hide Round, TaxAmount, VoucherFrom, HeadsOf, InterState, Balance, WholeHeads;
    SubtotalIsWhole(v);
    MixedHeadsUnbalance(GrandTotal(v), Subtotal(v), HeadsOf(v), InterState(v), Printed(LineAmounts(v.lines)));
  }

  lemma SubtotalIsWhole(v: Invoice)
    requires Whole(GrandTotal(v)) && Whole(v.subtotal)
    ensures Whole(Subtotal(v))
  {
  }

  /** Without a breakdown, the even split is even to the paisa, whatever the amounts. */
  lemma FallbackSplitIsEven(v: Invoice)
    requires !Split(HeadsOf(v))
    ensures Size(VoucherOf(v).cgst - VoucherOf(v).sgst) <= 1
  {
  }

  // ---------- the income ledger and its lines ----------

  /** What a line without a total_price prints beyond what it adds to the ledger. */
  function Gap(l: Line): real {
    if l.totalPrice != 0.0 || l.grandTotal == 0.0 then 0.0 else l.grandTotal - PreTax(l)
  }

  function Gaps(lines: seq<Line>): seq<real> {
    seq(|lines|, i requires 0 <= i < |lines| => Gap(lines[i]))
  }

  lemma {:induction false} GapsAddUp(lines: seq<Line>)
    ensures Total(LineAmounts(lines)) == Total(PreTaxes(lines)) + Total(Gaps(lines))
  {
    if lines != [] {
      var n := |lines| - 1;
      GapsAddUp(lines[..n]);
      assert LineAmounts(lines)[..n] == LineAmounts(lines[..n]);
      assert PreTaxes(lines)[..n] == PreTaxes(lines[..n]);
      assert Gaps(lines)[..n] == Gaps(lines[..n]);
      assert LineAmount(lines[n]) == PreTax(lines[n]) + Gap(lines[n]);
    }
  }

  /** The income ledger is off its n inventory lines by the gaps of the lines that have a
      grand total but no total_price, to within (n + 1) / 2 paise; to the paisa when the
      lines are whole, and then the two agree if and only if the gaps cancel. */
  lemma IncomeLedgerNearLines(v: Invoice)
    requires Total(PreTaxes(v.lines)) > 0.0
    ensures var out, gap, n := VoucherOf(v), Total(Gaps(v.lines)), |v.lines| as real;
            var off := (Sum(out.inventory) - out.income) as real;
            && -(n + 1.0) / 2.0 <= off - gap <= (n + 1.0) / 2.0
            && (AllWhole(PreTaxes(v.lines)) && AllWhole(LineAmounts(v.lines)) ==>
                  off == gap && (out.income == Sum(out.inventory) <==> gap == 0.0))
  {
    var before, printed := PreTaxes(v.lines), LineAmounts(v.lines);
    GapsAddUp(v.lines);
    PrintedDrift(printed);
    RoundIsNearest(Total(before));
    RoundOfWhole(Round(Total(before)));
    if AllWhole(before) && AllWhole(printed) {
      TotalOfWhole(before);
      TotalOfWhole(printed);
      RoundOfWholeReal(Total(before));
    }
    hide Round, TaxAmount, HeadsOf, InterState, PreTaxes, LineAmounts, Gaps;
  }

  /** When the lines have no positive pre-tax total, as when they carry only a grand total,
      the ledger has the header's amount while the lines print theirs: it is off by the
      difference to within (n + 1) / 2 paise, and for whole paise the two agree if and only
      if the header equals what the lines print. */
  lemma HeaderOnlyIncome(v: Invoice)
    requires Total(PreTaxes(v.lines)) <= 0.0
    ensures var header := if v.subtotal != 0.0 then v.subtotal else GrandTotal(v);
            var out, n := VoucherOf(v), |v.lines| as real;
            var off, gap := (Sum(out.inventory) - out.income) as real, Total(LineAmounts(v.lines)) - header;
            && -(n + 1.0) / 2.0 <= off - gap <= (n + 1.0) / 2.0
            && (Whole(header) && AllWhole(LineAmounts(v.lines)) ==>
                  off == gap && (out.income == Sum(out.inventory) <==> header == Total(LineAmounts(v.lines))))
  {
    var header := if v.subtotal != 0.0 then v.subtotal else GrandTotal(v);
    var printed := LineAmounts(v.lines);
    PrintedDrift(printed);
    RoundIsNearest(header);
    if Whole(header) && AllWhole(printed) {
      TotalOfWhole(printed);
      RoundOfWholeReal(header);
    }
    hide Round, TaxAmount, HeadsOf, InterState, PreTaxes, LineAmounts;
  }

  // ---------- which head carries the tax ----------

  datatype Head = Cgst | Sgst | Igst | Gst

  function FieldOf(l: Line, head: Head): seq<real> {
    match head
    case Cgst => l.cgst
    case Sgst => l.sgst
    case Igst => l.igst
    case Gst => l.tax
  }

  /** One head over the lines, 0 where a line has none. */
  function LineSums(lines: seq<Line>, head: Head): seq<real> {
    seq(|lines|, i requires 0 <= i < |lines| => FirstNonZero(FieldOf(lines[i], head), 0.0))
  }

  lemma {:induction false} LineHeadsAreSums(lines: seq<Line>)
    ensures LineHeads(lines).cgst == Total(LineSums(lines, Cgst))
    ensures LineHeads(lines).sgst == Total(LineSums(lines, Sgst))
    ensures LineHeads(lines).igst == Total(LineSums(lines, Igst))
    ensures LineHeads(lines).tax == Total(LineSums(lines, Gst))
  {
    hide FirstNonZero;
    if lines != [] {
      var n := |lines| - 1;
      LineHeadsAreSums(lines[..n]);
      assert LineSums(lines, Cgst)[..n] == LineSums(lines[..n], Cgst);
      assert LineSums(lines, Sgst)[..n] == LineSums(lines[..n], Sgst);
      assert LineSums(lines, Igst)[..n] == LineSums(lines[..n], Igst);
      assert LineSums(lines, Gst)[..n] == LineSums(lines[..n], Gst);
    }
  }

  /** A printed head is its amount to within half a paisa, and nothing for an amount that
      is not positive. */
  predicate PrintsHead(printed: int, amount: real) {
    if amount > 0.0 then -0.5 <= printed as real - amount <= 0.5 else printed == 0
  }

  /** The heads of the header, when it has any amount at all; else those of the lines. */
  predicate FromHeader(v: Invoice) {
    FirstNonZero(v.cgst, 0.0) != 0.0 || FirstNonZero(v.sgst, 0.0) != 0.0 || FirstNonZero(v.igst, 0.0) != 0.0
    || FirstNonZero(v.tax, 0.0) != 0.0
  }

  /** Customer and company are in two known states. */
  predicate AcrossStates(v: Invoice) {
    var a, b := Lower(Strip(v.customerState)), Lower(Strip(v.companyState));
    a != "" && b != "" && a != b
  }

  /** A broken-down tax is printed head by head. */
  lemma BreakdownIsPrinted(v: Invoice)
    ensures var c, s, i := FirstNonZero(v.cgst, 0.0), FirstNonZero(v.sgst, 0.0), FirstNonZero(v.igst, 0.0);
            c != 0.0 || s != 0.0 || i != 0.0 ==>
              var out := VoucherOf(v); PrintsHead(out.cgst, c) && PrintsHead(out.sgst, s) && PrintsHead(out.igst, i)
    ensures var c := Round(Total(LineSums(v.lines, Cgst))) as real;
            var s := Round(Total(LineSums(v.lines, Sgst))) as real;
            var i := Round(Total(LineSums(v.lines, Igst))) as real;
            !FromHeader(v) && (c != 0.0 || s != 0.0 || i != 0.0) ==>
              var out := VoucherOf(v); PrintsHead(out.cgst, c) && PrintsHead(out.sgst, s) && PrintsHead(out.igst, i)
  {
    LineHeadsAreSums(v.lines);
    var h := HeadsOf(v);
    RoundIsNearest(h.cgst);
    RoundIsNearest(h.sgst);
    RoundIsNearest(h.igst);
    hide Round, LineSums, Total, LineHeads, FirstNonZero, InterState, TaxAmount, GrandTotal, Subtotal, Printed, LineAmounts;
  }

  /** The tax of an invoice without a breakdown: the stated one, or what the grand total
      has over the subtotal. */
  function Unsplit(v: Invoice): real {
    var stated := if FromHeader(v) then FirstNonZero(v.tax, 0.0) else Round(Total(LineSums(v.lines, Gst))) as real;
    var over := Round(GrandTotal(v) - Subtotal(v)) as real;
    if stated > 0.0 then stated else if over > 0.0 then over else 0.0
  }

  predicate NoBreakdown(v: Invoice) {
    if FromHeader(v) then
      FirstNonZero(v.cgst, 0.0) == 0.0 && FirstNonZero(v.sgst, 0.0) == 0.0 && FirstNonZero(v.igst, 0.0) == 0.0
    else
      Round(Total(LineSums(v.lines, Cgst))) == 0 && Round(Total(LineSums(v.lines, Sgst))) == 0
      && Round(Total(LineSums(v.lines, Igst))) == 0
  }

  /** Without a breakdown, an invoice across states prints the whole tax as IGST; any other
      prints none, and CGST and SGST which make up the tax, a whole one to the paisa, each
      half of it to within half a paisa. */
  lemma UnsplitTaxIsPlaced(v: Invoice)
    requires NoBreakdown(v)
    ensures var out, tax := VoucherOf(v), Unsplit(v);
            && (AcrossStates(v) ==> out.cgst == out.sgst == 0 && PrintsHead(out.igst, tax))
            && (!AcrossStates(v) ==>
                  && out.igst == 0 && -0.5 <= (out.cgst + out.sgst) as real - tax <= 0.5
                  && -0.5 <= out.cgst as real - tax / 2.0 <= 0.5 && -1.0 <= out.sgst as real - tax / 2.0 <= 1.0
                  && (Whole(tax) ==> (out.cgst + out.sgst) as real == tax && -0.5 <= out.sgst as real - tax / 2.0 <= 0.5))
  {
    var h, tax := HeadsOf(v), Unsplit(v);
    HeadsWithoutBreakdown(v);
    TaxWithoutBreakdown(v);
    RoundIsNearest(tax);
    RoundIsNearest(tax / 2.0);
    RoundIsNearest(tax - FirstHalf(tax) as real);
    HalvesOfZero();
    if Whole(tax) {
      HalvesMakeWhole(tax);
    }
    hide Round, HeadsOf, TaxAmount, Unsplit, NoBreakdown, GrandTotal, Subtotal, Printed, LineAmounts;
  }

  lemma HalvesOfZero()
    ensures Round(0.0) == 0 && FirstHalf(0.0) == 0 && SecondHalf(0.0) == 0
  {
  }

  lemma HeadsWithoutBreakdown(v: Invoice)
    requires NoBreakdown(v)
    ensures !Split(HeadsOf(v))
    ensures HeadsOf(v).tax == if FromHeader(v) then FirstNonZero(v.tax, 0.0) else Round(Total(LineSums(v.lines, Gst))) as real
  {
    LineHeadsAreSums(v.lines);
    hide Round, LineSums, Total, LineHeads, FirstNonZero;
  }

  lemma TaxWithoutBreakdown(v: Invoice)
    requires NoBreakdown(v)
    ensures TaxAmount(GrandTotal(v), Subtotal(v), HeadsOf(v)) == Unsplit(v)
  {
    HeadsWithoutBreakdown(v);
    hide Round, HeadsOf, LineSums, Total, FirstNonZero, GrandTotal, Subtotal, FromHeader;
  }

  // ---------- one line ----------

  /** An invoice of one line has the line's total_price, or else its price times the
      quantity or one, as its income; it prints the same, or for want of a total_price the
      line's grand total. */
  lemma OneLineInvoice(v: Invoice, l: Line, amount: real)
    requires v.lines == [l] && amount > 0.0
    requires amount == if l.totalPrice != 0.0 then l.totalPrice else if l.quantity != 0.0 then l.price * l.quantity else l.price
    ensures VoucherOf(v).income == Round(amount)
    ensures VoucherOf(v).inventory == [Round(if l.totalPrice == 0.0 && l.grandTotal != 0.0 then l.grandTotal else amount)]
  {
    var printed := if l.totalPrice == 0.0 && l.grandTotal != 0.0 then l.grandTotal else amount;
    assert PreTax(l) == amount && LineAmount(l) == printed;
    hide PreTax, LineAmount;
    assert PreTaxes([l]) == [amount] && LineAmounts([l]) == [printed];
    assert [amount][..0] == [] && Total([amount]) == amount;
    assert Printed([printed]) == [Round(printed)];
    RoundOfWhole(Round(amount));
    hide Round, TaxAmount, HeadsOf, InterState, PreTaxes, LineAmounts, Total, Printed, GrandTotal;
  }
}
