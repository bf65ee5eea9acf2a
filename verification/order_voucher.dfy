/** The amounts of build_sales_order_voucher_xml in app/connectors/tally/sales_voucher.py. */
module OrderVoucher {
  import opened Wrappers
  import opened Rounding
  import opened Amounts

  /** Each list is a chain of alternative payload fields, 0 standing for an absent one. */
  datatype Line = NotALine | Line(prices: seq<real>, totals: seq<real>, quantities: seq<real>)

  datatype Order = Order(amounts: seq<real>, lines: seq<Line>, rates: seq<Option<real>>)

  /** Printed ledger amounts; a tax of zero prints no tax entries. */
  datatype Voucher = Voucher(party: int, sales: int, inventory: seq<int>, cgst: int, sgst: int)

  /** _resolve_order_gst_percent: the first usable positive rate. */
  function GstPercent(rates: seq<Option<real>>): real {
    if rates == [] then 0.0
    else if rates[0].Some? && rates[0].value > 0.0 then rates[0].value
    else GstPercent(rates[1..])
  }

  function Times(price: real, quantity: real): real {
    price * quantity
  }

  function LineTotal(l: Line): real
    requires l.Line?
  {
    FirstNonZero(l.totals, Times(FirstNonZero(l.prices, 0.0), FirstNonZero(l.quantities, 1.0)))
  }

  function LineTotals(lines: seq<Line>): seq<real> {
    if lines == [] then []
    else
      var last := lines[|lines| - 1];
      LineTotals(lines[..|lines| - 1]) + if last.Line? then [LineTotal(last)] else []
  }

  function Amount(o: Order): real {
    FirstNonZero(o.amounts, 0.0)
  }

  datatype Books = Books(amount: real, subtotal: real, tax: real)

  function TaxAt(subtotal: real, percent: real): real {
    subtotal * percent / 100.0
  }

  /** The three branches, and the reset inside the second. */
  function BooksOf(amount: real, subtotal: real, percent: real): Books {
    if subtotal > 0.0 && percent > 0.0 then
      var tax := Round(TaxAt(subtotal, percent)) as real;
      Books(Round(subtotal + tax) as real, subtotal, tax)
    else if subtotal > 0.0 then
      var tax := Round(amount - subtotal) as real;
      if tax < 0.0 then Books(subtotal, subtotal, 0.0) else Books(amount, subtotal, tax)
    else Books(amount, amount, 0.0)
  }

  function VoucherFrom(b: Books, inventory: seq<int>): Voucher {
    if b.tax > 0.0 then Voucher(-Round(b.amount), Round(b.subtotal), inventory, FirstHalf(b.tax), SecondHalf(b.tax))
    else Voucher(-Round(b.amount), Round(b.subtotal), inventory, 0, 0)
  }

  function BooksOfOrder(o: Order): Books {
    BooksOf(Amount(o), Total(LineTotals(o.lines)), GstPercent(o.rates))
  }

  function VoucherOf(o: Order): Voucher {
    VoucherFrom(BooksOfOrder(o), Printed(LineTotals(o.lines)))
  }

  function Balance(v: Voucher): int {
    v.party + v.sales + v.cgst + v.sgst
  }

  lemma OneMoreLine(lines: seq<Line>, i: nat)
    requires i < |lines|
    ensures var before, after := LineTotals(lines[..i]), LineTotals(lines[..i + 1]);
            && (lines[i].NotALine? ==> after == before)
            && (lines[i].Line? ==>
                  && after == before + [LineTotal(lines[i])] && Total(after) == Total(before) + LineTotal(lines[i])
                  && Printed(after) == Printed(before) + [Round(LineTotal(lines[i]))])
  {
    hide Round, LineTotal;
    assert lines[..i + 1][..i] == lines[..i];
    var before, after := LineTotals(lines[..i]), LineTotals(lines[..i + 1]);
    if lines[i].Line? {
      assert after[..|before|] == before;
    }
  }

  /** The item loop. */
  method AddLines(lines: seq<Line>) returns (subtotal: real, inventory: seq<int>)
    ensures subtotal == Total(LineTotals(lines)) && inventory == Printed(LineTotals(lines))
  {
    hide Round, LineTotal, Total, Printed, LineTotals;
    subtotal, inventory := 0.0, [];
    NoLines();
    for i := 0 to |lines|
      invariant subtotal == Total(LineTotals(lines[..i]))
      invariant inventory == Printed(LineTotals(lines[..i]))
    {
      OneMoreLine(lines, i);
      if lines[i].Line? {
        subtotal := subtotal + LineTotal(lines[i]);
        inventory := inventory + [Round(LineTotal(lines[i]))];
      }
    }
    assert lines[..|lines|] == lines;
  }

  lemma NoLines()
    ensures Total(LineTotals([])) == 0.0 && Printed(LineTotals([])) == []
  {
  }

  method BuildOrderVoucher(o: Order) returns (v: Voucher)
    ensures v == VoucherOf(o)
  {
    hide Round, FirstNonZero, Total, Printed, LineTotals, GstPercent, TaxAt;
    var amount := Amount(o);
    var subtotal, inventory := AddLines(o.lines);
    var percent := GstPercent(o.rates);
    var tax := 0.0;
    if subtotal > 0.0 && percent > 0.0 {
      tax := Round(TaxAt(subtotal, percent)) as real;
      amount := Round(subtotal + tax) as real;
    } else if subtotal > 0.0 {
      tax := Round(amount - subtotal) as real;
      if tax < 0.0 {
        tax := 0.0;
        amount := subtotal;
      }
    } else {
      subtotal := amount;
    }
    var cgst, sgst := 0, 0;
    if tax > 0.0 {
      cgst := Round(tax / 2.0);
      sgst := Round(tax - cgst as real);
    }
    v := Voucher(-Round(amount), Round(subtotal), inventory, cgst, sgst);
  }

  /** The printed entries, read off the books. */
  lemma BalanceOfBooks(b: Books, inventory: seq<int>)
    requires Whole(b.tax) && b.tax >= 0.0
    ensures Balance(VoucherFrom(b, inventory)) == Round(b.subtotal) + b.tax.Floor - Round(b.amount)
    ensures Size(VoucherFrom(b, inventory).cgst - VoucherFrom(b, inventory).sgst) <= 1
  {
  }

  lemma RatedTaxIsPositive(subtotal: real, percent: real)
    requires subtotal > 0.0 && percent > 0.0
    ensures Round(TaxAt(subtotal, percent)) >= 0
  {
  }

  /** The order voucher's ledger entries sum to within a paisa of zero, on every branch
      and for any rational amounts; CGST and SGST differ by at most a paisa. */
  lemma OrderBalances(o: Order)
    ensures Size(Balance(VoucherOf(o))) <= 1 && Size(VoucherOf(o).cgst - VoucherOf(o).sgst) <= 1
  {
    hide VoucherFrom, BooksOf, Balance;
    BooksBalance(Amount(o), Total(LineTotals(o.lines)), GstPercent(o.rates), Printed(LineTotals(o.lines)));
  }

  lemma BooksBalance(amount: real, subtotal: real, percent: real, inventory: seq<int>)
    ensures var v := VoucherFrom(BooksOf(amount, subtotal, percent), inventory);
            Size(Balance(v)) <= 1 && Size(v.cgst - v.sgst) <= 1
  {
    var b := BooksOf(amount, subtotal, percent);
    if subtotal > 0.0 && percent > 0.0 {
      RatedTaxIsPositive(subtotal, percent);
      RoundOfWhole(Round(subtotal + b.tax));
      RoundShiftIff(subtotal, b.tax.Floor);
    } else if subtotal > 0.0 && b.tax > 0.0 {
      RoundIsNearest(amount);
      RoundIsNearest(subtotal);
      RoundIsNearest(amount - subtotal);
    } else if subtotal > 0.0 {
      RoundIsNearest(amount);
      RoundIsNearest(subtotal);
      RoundIsNearest(amount - subtotal);
    }
    hide Round, BooksOf;
    TaxOfBooks(amount, subtotal, percent);
    BalanceOfBooks(b, inventory);
  }

  lemma TaxOfBooks(amount: real, subtotal: real, percent: real)
    ensures Whole(BooksOf(amount, subtotal, percent).tax) && BooksOf(amount, subtotal, percent).tax >= 0.0
  {
  }

  /** With a GST rate the entries sum to zero exactly unless the subtotal lies half-way
      between two paise and the tax is odd. */
  lemma RatedOrderBalancesIff(amount: real, subtotal: real, percent: real, inventory: seq<int>)
    requires subtotal > 0.0 && percent > 0.0
    ensures Balance(VoucherFrom(BooksOf(amount, subtotal, percent), inventory)) == 0
            <==> !(HalfWay(subtotal) && Odd(Round(TaxAt(subtotal, percent))))
  {
    var b := BooksOf(amount, subtotal, percent);
    RatedTaxIsPositive(subtotal, percent);
    RoundOfWhole(Round(subtotal + b.tax));
    RoundShiftIff(subtotal, b.tax.Floor);
    hide Round;
    BalanceOfBooks(b, inventory);
  }

  /** The books come out exact: with a rate, by the parity of the tax; without one, when
      no tax is left over, or when header and lines round alike: their rests less than a
      half apart, or a half apart and the printed tax even; and always without lines. */
  predicate Exact(amount: real, subtotal: real, percent: real) {
    var apart, printed := Rest(amount) - Rest(subtotal), Round(amount) - Round(subtotal);
    if subtotal > 0.0 && percent > 0.0 then !(HalfWay(subtotal) && Odd(Round(TaxAt(subtotal, percent))))
    else if subtotal > 0.0 then
      Round(amount - subtotal) < 0 || -0.5 < apart < 0.5 || ((apart == 0.5 || apart == -0.5) && !Odd(printed))
    else true
  }

  lemma BooksBalanceIff(amount: real, subtotal: real, percent: real, inventory: seq<int>)
    ensures Balance(VoucherFrom(BooksOf(amount, subtotal, percent), inventory)) == 0 <==> Exact(amount, subtotal, percent)
  {
    var b := BooksOf(amount, subtotal, percent);
    if subtotal > 0.0 && percent > 0.0 {
      RatedOrderBalancesIff(amount, subtotal, percent, inventory);
    } else {
      RoundBackIff(Round(amount) - Round(subtotal), Rest(amount) - Rest(subtotal));
      assert amount - subtotal == (Round(amount) - Round(subtotal)) as real + (Rest(amount) - Rest(subtotal));
      hide Round, Rest;
      TaxOfBooks(amount, subtotal, percent);
      BalanceOfBooks(b, inventory);
    }
  }

  /** On every branch the order voucher's entries sum to zero exactly on that condition. */
  lemma OrderBalancesIff(o: Order)
    ensures Balance(VoucherOf(o)) == 0 <==> Exact(Amount(o), Total(LineTotals(o.lines)), GstPercent(o.rates))
  {
    hide Round, VoucherFrom, BooksOf, Balance, Exact;
    BooksBalanceIff(Amount(o), Total(LineTotals(o.lines)), GstPercent(o.rates), Printed(LineTotals(o.lines)));
  }

  /** A paisa is lost without a rate too: half a paisa on the header is enough. */
  lemma UnratedOrderSlips(o: Order)
    requires Amount(o) == 100.5 && LineTotals(o.lines) == [99.6] && GstPercent(o.rates) == 0.0
    ensures VoucherOf(o) == Voucher(-100, 100, [100], 0, 1) && Balance(VoucherOf(o)) == 1
  {
    assert [99.6][..0] == [] && Total([99.6]) == 99.6;
    assert (100.5).Floor == 100 && (99.6).Floor == 99 && (0.9).Floor == 0 && (0.5).Floor == 0 && (1.0).Floor == 1;
    assert Printed([99.6]) == [100];
  }

  /** For whole-paise amounts they sum to zero on every branch. */
  lemma WholeOrderBalances(o: Order)
    requires Whole(Amount(o)) && AllWhole(LineTotals(o.lines))
    ensures Balance(VoucherOf(o)) == 0
  {
    var lines := LineTotals(o.lines);
    TotalOfWhole(lines);
    RoundOfWholeReal(Amount(o));
    RoundOfWholeReal(Total(lines));
    OrderBalancesIff(o);
    hide Round, Balance, VoucherOf;
  }

  /** When the lines have a positive total, the sales ledger's own amount is within
      (n + 1) / 2 paise of its n inventory lines, and equals them for whole-paise lines. */
  lemma SalesLedgerNearLines(o: Order)
    requires Total(LineTotals(o.lines)) > 0.0
    ensures var v := VoucherOf(o);
            2 * Size(v.sales - Sum(v.inventory)) <= |v.inventory| + 1
            && (AllWhole(LineTotals(o.lines)) ==> v.sales == Sum(v.inventory))
  {
    LedgerNearLines(LineTotals(o.lines));
    hide Round;
  }

  /** Without that, the ledger carries the header amount while the lines are printed all
      the same: for whole paise the two agree if and only if the header equals the lines'
      total, so never for a positive header. */
  lemma HeaderOnlyLedger(o: Order)
    requires Total(LineTotals(o.lines)) <= 0.0 && Whole(Amount(o)) && AllWhole(LineTotals(o.lines))
    ensures var v := VoucherOf(o);
            && (v.sales == Sum(v.inventory) <==> Amount(o) == Total(LineTotals(o.lines)))
            && (Amount(o) > 0.0 ==> v.sales > Sum(v.inventory))
  {
    TotalOfWhole(LineTotals(o.lines));
    RoundOfWholeReal(Amount(o));
    hide Round;
  }

  // ---------- the rate and the tax ----------

  predicate Usable(rate: Option<real>) {
    rate.Some? && rate.value > 0.0
  }

  /** The rate is the first usable one, and 0 when there is none. */
  lemma {:induction false} RateIsFirstUsable(rates: seq<Option<real>>, m: nat)
    requires m <= |rates| && (forall k :: 0 <= k < m ==> !Usable(rates[k])) && (m < |rates| ==> Usable(rates[m]))
    ensures GstPercent(rates) == if m < |rates| then rates[m].value else 0.0
  {
    if m > 0 {
      RateIsFirstUsable(rates[1..], m - 1);
    }
  }

  /** A rated order prints that percentage of its lines' total as tax, to within half a
      paisa, in two halves, and charges the party the total with the tax. */
  lemma RatedTaxIsPercentage(o: Order, m: nat, total: real, rate: real)
    requires m < |o.rates| && (forall k :: 0 <= k < m ==> !Usable(o.rates[k])) && Usable(o.rates[m])
    requires total == Total(LineTotals(o.lines)) > 0.0 && rate == o.rates[m].value
    ensures var v := VoucherOf(o);
            && -0.5 <= (v.cgst + v.sgst) as real - total * rate / 100.0 <= 0.5
            && Size(v.cgst - v.sgst) <= 1 && v.sales == Round(total) && v.party == -Round(total + (v.cgst + v.sgst) as real)
  {
    RateIsFirstUsable(o.rates, m);
    RatedBooks(Amount(o), total, rate, Printed(LineTotals(o.lines)));
    hide Round, LineTotals, Total, GstPercent, Amount, VoucherFrom, BooksOf, Size, Printed;
  }

  lemma RatedBooks(amount: real, total: real, rate: real, inventory: seq<int>)
    requires total > 0.0 && rate > 0.0
    ensures var v := VoucherFrom(BooksOf(amount, total, rate), inventory);
            && -0.5 <= (v.cgst + v.sgst) as real - total * rate / 100.0 <= 0.5
            && Size(v.cgst - v.sgst) <= 1 && v.sales == Round(total) && v.party == -Round(total + (v.cgst + v.sgst) as real)
  {
    RatedTaxIsPositive(total, rate);
    RoundIsNearest(TaxAt(total, rate));
    assert TaxAt(total, rate) == total * rate / 100.0;
    hide TaxAt;
    RoundOfWhole(Round(total + Round(TaxAt(total, rate)) as real));
    RoundOfWhole(Round(TaxAt(total, rate)));
    TaxOfBooks(amount, total, rate);
    hide Round, VoucherFrom;
    BooksPrinted(BooksOf(amount, total, rate), inventory);
  }

  lemma BooksPrinted(b: Books, inventory: seq<int>)
    requires Whole(b.tax) && b.tax >= 0.0
    ensures var v := VoucherFrom(b, inventory);
            && (v.cgst + v.sgst) as real == b.tax && Size(v.cgst - v.sgst) <= 1
            && v.sales == Round(b.subtotal) && v.party == -Round(b.amount)
  {
    HalvesMakeWhole(b.tax);
    hide Round, FirstHalf, SecondHalf, Whole;
  }

  /** An order without a usable rate prints what the header has over the lines, if
      anything. */
  lemma UnratedTaxIsRest(o: Order)
    requires (forall k :: 0 <= k < |o.rates| ==> !Usable(o.rates[k])) && Total(LineTotals(o.lines)) > 0.0
    ensures var v, rest := VoucherOf(o), Round(Amount(o) - Total(LineTotals(o.lines)));
            v.cgst + v.sgst == (if rest > 0 then rest else 0) && Size(v.cgst - v.sgst) <= 1
  {
    RateIsFirstUsable(o.rates, |o.rates|);
    var b := BooksOf(Amount(o), Total(LineTotals(o.lines)), 0.0);
    TaxOfBooks(Amount(o), Total(LineTotals(o.lines)), 0.0);
    BooksPrinted(b, Printed(LineTotals(o.lines)));
    hide Round, LineTotals, Total, GstPercent, Amount;
  }

  // ---------- one line ----------

  lemma {:induction false} FirstOrElse(xs: seq<real>, otherwise: real)
    ensures FirstNonZero(xs, otherwise) == if FirstNonZero(xs, 0.0) != 0.0 then FirstNonZero(xs, 0.0) else otherwise
  {
    if xs != [] {
      FirstOrElse(xs[1..], otherwise);
    }
  }

  lemma LineTotalIs(l: Line, amount: real)
    requires l.Line?
    requires var total, price, quantity := FirstNonZero(l.totals, 0.0), FirstNonZero(l.prices, 0.0), FirstNonZero(l.quantities, 0.0);
             amount == if total != 0.0 then total else if quantity != 0.0 then Times(price, quantity) else price
    ensures LineTotal(l) == amount
  {
    assert Times(FirstNonZero(l.prices, 0.0), 1.0) == FirstNonZero(l.prices, 0.0);
    hide Times;
    FirstOrElse(l.quantities, 1.0);
    FirstOrElse(l.totals, Times(FirstNonZero(l.prices, 0.0), FirstNonZero(l.quantities, 1.0)));
  }

  /** An order of one line prints the line's own total, or else its price, times the
      quantity when it has one, as sales and as inventory. */
  lemma OneLineOrder(o: Order, l: Line, amount: real)
    requires o.lines == [l] && l.Line? && amount > 0.0
    requires var total, price, quantity := FirstNonZero(l.totals, 0.0), FirstNonZero(l.prices, 0.0), FirstNonZero(l.quantities, 0.0);
             amount == if total != 0.0 then total else if quantity != 0.0 then Times(price, quantity) else price
    ensures VoucherOf(o).sales == Round(amount) && VoucherOf(o).inventory == [Round(amount)]
  {
    LineTotalIs(l, amount);
    hide LineTotal, Round, GstPercent, TaxAt, Amount, Times, FirstNonZero;
    OneTotal(l, amount);
    BooksOfOneLine(o, amount);
  }

  lemma OneTotal(l: Line, amount: real)
    requires l.Line? && LineTotal(l) == amount
    ensures LineTotals([l]) == [amount] && Total([amount]) == amount && Printed([amount]) == [Round(amount)]
  {
    hide LineTotal, Round;
    assert [l][..0] == [] && LineTotals([]) == [];
    assert [amount][..0] == [];
  }

  lemma BooksOfOneLine(o: Order, amount: real)
    requires LineTotals(o.lines) == [amount] && Total([amount]) == amount > 0.0
    ensures VoucherOf(o).sales == Round(amount) && VoucherOf(o).inventory == Printed([amount])
  {
    hide LineTotals, Total, Printed, Round, GstPercent, TaxAt, Amount;
  }
}
