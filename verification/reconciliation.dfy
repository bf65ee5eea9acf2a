/** app/reconciliation/engine.py: the five reconcile_* reports. They index both lists by
    a cleaned key, a later record replacing an earlier one, and compare the indexes. */
module Reconciliation {
  import opened Text
  import opened Rounding
  import opened Amounts

  /** Alternative payload fields: "" and 0 stand for absent ones. */
  datatype Record = Record(id: string, names: seq<string>, amounts: seq<real>, dates: seq<string>)

  datatype Mismatch = MissingInTally | MissingInRentasst | AmountMismatch | DateMismatch

  datatype Entry = Entry(kind: Mismatch, key: string, id: string)

  /** Which records a report indexes, and what it compares. */
  datatype Rule = Rule(raBlank: bool, tallyBlank: bool, amounts: bool, dates: bool)

  const CUSTOMERS := Rule(true, false, false, false)
  const INVOICES := Rule(true, true, true, true)
  const PAYMENTS := Rule(false, false, true, false)
  const EQUIPMENT := Rule(false, false, false, false)
  const RENTAL_ORDERS := Rule(false, false, false, false)

  const TOLERANCE := 5

  function FirstName(names: seq<string>): string {
    if names == [] then "" else Or(names[0], FirstName(names[1..]))
  }

  function KeyOf(r: Record): string {
    Lower(Strip(FirstName(r.names)))
  }

  predicate Indexed(r: Record, blank: bool) {
    blank || FirstName(r.names) != ""
  }

  function CleanAmount(r: Record): int {
    Round(FirstNonZero(r.amounts, 0.0))
  }

  function CleanDate(r: Record): string {
    var d := Strip(FirstName(r.dates));
    if |d| <= 10 then d else d[..10]
  }

  function WithoutDashes(s: string): string {
    if s == "" then "" else (if s[0] == '-' then "" else [s[0]]) + WithoutDashes(s[1..])
  }

  predicate AmountsDiffer(a: Record, b: Record) {
    Size(CleanAmount(a) - CleanAmount(b)) > TOLERANCE
  }

  predicate DatesDiffer(a: Record, b: Record) {
    CleanDate(a) != "" && CleanDate(b) != "" && WithoutDashes(CleanDate(a)) != WithoutDashes(CleanDate(b))
  }

  /** The two comparisons, where the rule makes them. */
  predicate Differs(rule: Rule, kind: Mismatch, a: Record, b: Record) {
    (kind == AmountMismatch && rule.amounts && AmountsDiffer(a, b)) || (kind == DateMismatch && rule.dates && DatesDiffer(a, b))
  }

  // ---------- the index: a Python dict comprehension ----------

  /** Keys in first-seen order. */
  function Keys(rs: seq<Record>, blank: bool): seq<string> {
    if rs == [] then []
    else
      var before, r := Keys(rs[..|rs| - 1], blank), rs[|rs| - 1];
      if Indexed(r, blank) && KeyOf(r) !in before then before + [KeyOf(r)] else before
  }

  /** The record each key ends up with. */
  function Final(rs: seq<Record>, blank: bool): map<string, Record> {
    if rs == [] then map[]
    else
      var before, r := Final(rs[..|rs| - 1], blank), rs[|rs| - 1];
      if Indexed(r, blank) then before[KeyOf(r) := r] else before
  }

  /** Said without building anything: the last indexed record of its key. */
  predicate IsLast(rs: seq<Record>, blank: bool, i: nat)
    requires i < |rs|
  {
    Indexed(rs[i], blank) && forall j :: i < j < |rs| && Indexed(rs[j], blank) ==> KeyOf(rs[j]) != KeyOf(rs[i])
  }

  predicate Distinct(ks: seq<string>) {
    forall i, j :: 0 <= i < j < |ks| ==> ks[i] != ks[j]
  }

  lemma {:induction false} KeysAreFinal(rs: seq<Record>, blank: bool)
    ensures Distinct(Keys(rs, blank))
    ensures forall k :: k in Keys(rs, blank) <==> k in Final(rs, blank)
    ensures forall k :: k in Final(rs, blank) ==> KeyOf(Final(rs, blank)[k]) == k
  {
    hide KeyOf, Indexed;
    if rs != [] {
      KeysAreFinal(rs[..|rs| - 1], blank);
    }
  }

  /** The last indexed record of a key, as an existence claim. */
  predicate LastOf(rs: seq<Record>, blank: bool, k: string, r: Record) {
    exists i :: 0 <= i < |rs| && IsLast(rs, blank, i) && KeyOf(rs[i]) == k && rs[i] == r
  }

  lemma {:induction false} LastIsFinal(rs: seq<Record>, blank: bool, i: nat)
    requires i < |rs| && IsLast(rs, blank, i)
    ensures KeyOf(rs[i]) in Final(rs, blank) && Final(rs, blank)[KeyOf(rs[i])] == rs[i]
  {
    hide KeyOf, Indexed;
    var n := |rs| - 1;
    if i < n {
      assert rs[..n][i] == rs[i] && forall j :: 0 <= j < n ==> rs[..n][j] == rs[j];
      LastIsFinal(rs[..n], blank, i);
      assert Indexed(rs[n], blank) ==> KeyOf(rs[n]) != KeyOf(rs[i]);
    }
  }

  lemma {:induction false} FinalIsLast(rs: seq<Record>, blank: bool, k: string)
    requires k in Final(rs, blank)
    ensures LastOf(rs, blank, k, Final(rs, blank)[k])
  {
    hide KeyOf, Indexed;
    var n := |rs| - 1;
    if Indexed(rs[n], blank) && KeyOf(rs[n]) == k {
      assert IsLast(rs, blank, n);
    } else {
      FinalIsLast(rs[..n], blank, k);
      var i :| 0 <= i < n && IsLast(rs[..n], blank, i) && KeyOf(rs[..n][i]) == k && rs[..n][i] == Final(rs[..n], blank)[k];
      assert forall j :: 0 <= j < n ==> rs[..n][j] == rs[j];
      assert IsLast(rs, blank, i);
    }
  }

  // ---------- the report ----------

  function RaEntries(rule: Rule, k: string, a: Record, tally: map<string, Record>): seq<Entry> {
    if k !in tally then [Entry(MissingInTally, k, a.id)]
    else
      (if Differs(rule, AmountMismatch, a, tally[k]) then [Entry(AmountMismatch, k, a.id)] else [])
      + (if Differs(rule, DateMismatch, a, tally[k]) then [Entry(DateMismatch, k, a.id)] else [])
  }

  function TallyEntries(k: string, b: Record, ra: map<string, Record>): seq<Entry> {
    if k !in ra then [Entry(MissingInRentasst, k, FirstName(b.names))] else []
  }

  function RaPart(rule: Rule, ks: seq<string>, ra: map<string, Record>, tally: map<string, Record>): seq<Entry>
    requires forall k :: k in ks ==> k in ra
  {
    if ks == [] then []
    else
      var k := ks[|ks| - 1];
      RaPart(rule, ks[..|ks| - 1], ra, tally) + RaEntries(rule, k, ra[k], tally)
  }

  function TallyPart(ks: seq<string>, ra: map<string, Record>, tally: map<string, Record>): seq<Entry>
    requires forall k :: k in ks ==> k in tally
  {
    if ks == [] then []
    else
      var k := ks[|ks| - 1];
      TallyPart(ks[..|ks| - 1], ra, tally) + TallyEntries(k, tally[k], ra)
  }

  function Report(rule: Rule, ra: seq<Record>, tally: seq<Record>): seq<Entry> {
    KeysAreFinal(ra, rule.raBlank);
    KeysAreFinal(tally, rule.tallyBlank);
    var a, b := Final(ra, rule.raBlank), Final(tally, rule.tallyBlank);
    RaPart(rule, Keys(ra, rule.raBlank), a, b) + TallyPart(Keys(tally, rule.tallyBlank), a, b)
  }

  // ---------- the program ----------

  method BuildIndex(rs: seq<Record>, blank: bool) returns (keys: seq<string>, final: map<string, Record>)
    ensures keys == Keys(rs, blank) && final == Final(rs, blank)
  {
    hide KeyOf, Indexed;
    keys, final := [], map[];
    for i := 0 to |rs|
      invariant keys == Keys(rs[..i], blank) && final == Final(rs[..i], blank)
    {
      assert rs[..i + 1][..i] == rs[..i];
      KeysAreFinal(rs[..i], blank);
      var r := rs[i];
      if Indexed(r, blank) {
        if KeyOf(r) !in final {
          keys := keys + [KeyOf(r)];
        }
        final := final[KeyOf(r) := r];
      }
    }
    assert rs[..|rs|] == rs;
  }

  lemma RaPartStep(rule: Rule, ks: seq<string>, i: nat, ra: map<string, Record>, tally: map<string, Record>)
    requires i < |ks| && forall k :: k in ks ==> k in ra
    ensures RaPart(rule, ks[..i + 1], ra, tally) == RaPart(rule, ks[..i], ra, tally) + RaEntries(rule, ks[i], ra[ks[i]], tally)
  {
    assert ks[..i + 1][..i] == ks[..i];
  }

  lemma TallyPartStep(ks: seq<string>, i: nat, ra: map<string, Record>, tally: map<string, Record>)
    requires i < |ks| && forall k :: k in ks ==> k in tally
    ensures TallyPart(ks[..i + 1], ra, tally) == TallyPart(ks[..i], ra, tally) + TallyEntries(ks[i], tally[ks[i]], ra)
  {
    assert ks[..i + 1][..i] == ks[..i];
  }

  method CompareRentasst(rule: Rule, keys: seq<string>, ra: map<string, Record>, tally: map<string, Record>)
    returns (report: seq<Entry>)
    requires forall k :: k in keys ==> k in ra
    ensures report == RaPart(rule, keys, ra, tally)
  {
    hide AmountsDiffer, DatesDiffer, RaPart;
    report := [];
    EmptyParts(rule, ra, tally);
    for i := 0 to |keys|
      invariant report == RaPart(rule, keys[..i], ra, tally)
    {
      RaPartStep(rule, keys, i, ra, tally);
      var k := keys[i];
      var a := ra[k];
      if k !in tally {
        report := report + [Entry(MissingInTally, k, a.id)];
      } else {
        if rule.amounts && AmountsDiffer(a, tally[k]) {
          report := report + [Entry(AmountMismatch, k, a.id)];
        }
        if rule.dates && DatesDiffer(a, tally[k]) {
          report := report + [Entry(DateMismatch, k, a.id)];
        }
      }
    }
    assert keys[..|keys|] == keys;
  }

  lemma EmptyParts(rule: Rule, ra: map<string, Record>, tally: map<string, Record>)
    ensures RaPart(rule, [], ra, tally) == [] && TallyPart([], ra, tally) == []
  {
  }

  method CompareTally(keys: seq<string>, ra: map<string, Record>, tally: map<string, Record>) returns (report: seq<Entry>)
    requires forall k :: k in keys ==> k in tally
    ensures report == TallyPart(keys, ra, tally)
  {
    hide TallyPart, FirstName;
    report := [];
    EmptyParts(INVOICES, ra, tally);
    for i := 0 to |keys|
      invariant report == TallyPart(keys[..i], ra, tally)
    {
      TallyPartStep(keys, i, ra, tally);
      var k := keys[i];
      if k !in ra {
        report := report + [Entry(MissingInRentasst, k, FirstName(tally[k].names))];
      }
    }
    assert keys[..|keys|] == keys;
  }

  method Reconcile(rule: Rule, ra: seq<Record>, tally: seq<Record>) returns (report: seq<Entry>)
    ensures report == Report(rule, ra, tally)
  {
    hide KeyOf, Indexed, Keys, Final, RaPart, TallyPart;
    KeysAreFinal(ra, rule.raBlank);
    KeysAreFinal(tally, rule.tallyBlank);
    var raKeys, raMap := BuildIndex(ra, rule.raBlank);
    var tallyKeys, tallyMap := BuildIndex(tally, rule.tallyBlank);
    var first := CompareRentasst(rule, raKeys, raMap, tallyMap);
    var second := CompareTally(tallyKeys, raMap, tallyMap);
    report := first + second;
  }

  method ReconcileCustomers(ra: seq<Record>, tally: seq<Record>) returns (report: seq<Entry>)
    ensures report == Report(CUSTOMERS, ra, tally)
  {
    report := Reconcile(CUSTOMERS, ra, tally);
  }

  method ReconcileInvoices(ra: seq<Record>, tally: seq<Record>) returns (report: seq<Entry>)
    ensures report == Report(INVOICES, ra, tally)
  {
    report := Reconcile(INVOICES, ra, tally);
  }

  method ReconcilePayments(ra: seq<Record>, tally: seq<Record>) returns (report: seq<Entry>)
    ensures report == Report(PAYMENTS, ra, tally)
  {
    report := Reconcile(PAYMENTS, ra, tally);
  }

  method ReconcileEquipment(ra: seq<Record>, tally: seq<Record>) returns (report: seq<Entry>)
    ensures report == Report(EQUIPMENT, ra, tally)
  {
    report := Reconcile(EQUIPMENT, ra, tally);
  }

  method ReconcileRentalOrders(ra: seq<Record>, tally: seq<Record>) returns (report: seq<Entry>)
    ensures report == Report(RENTAL_ORDERS, ra, tally)
  {
    report := Reconcile(RENTAL_ORDERS, ra, tally);
  }

  // ---------- sound and complete ----------

  function KeySet(ks: seq<string>): set<string> {
    set k | k in ks
  }

  function MissingKeys(ks: set<string>, other: map<string, Record>): set<string> {
    set k | k in ks && k !in other
  }

  function DifferingKeys(rule: Rule, kind: Mismatch, ks: set<string>, ra: map<string, Record>, tally: map<string, Record>): set<string> {
    set k | k in ks && k in ra && k in tally && Differs(rule, kind, ra[k], tally[k])
  }

  lemma LastKeyIsNew(ks: seq<string>)
    requires ks != [] && Distinct(ks)
    ensures KeySet(ks) == KeySet(ks[..|ks| - 1]) + {ks[|ks| - 1]} && ks[|ks| - 1] !in KeySet(ks[..|ks| - 1])
  {
    assert ks == ks[..|ks| - 1] + [ks[|ks| - 1]];
  }

  lemma MissingStep(ks: set<string>, k: string, other: map<string, Record>)
    requires k !in ks
    ensures |MissingKeys(ks + {k}, other)| == |MissingKeys(ks, other)| + (if k in other then 0 else 1)
  {
    assert MissingKeys(ks + {k}, other) == MissingKeys(ks, other) + if k in other then {} else {k};
  }

  lemma DifferingStep(rule: Rule, kind: Mismatch, ks: set<string>, k: string, ra: map<string, Record>, tally: map<string, Record>)
    requires k !in ks && k in ra
    ensures |DifferingKeys(rule, kind, ks + {k}, ra, tally)|
            == |DifferingKeys(rule, kind, ks, ra, tally)| + (if k in tally && Differs(rule, kind, ra[k], tally[k]) then 1 else 0)
  {
    hide Differs;
    assert DifferingKeys(rule, kind, ks + {k}, ra, tally)
        == DifferingKeys(rule, kind, ks, ra, tally) + if k in tally && Differs(rule, kind, ra[k], tally[k]) then {k} else {};
  }

  lemma {:induction false} RaPartCounts(rule: Rule, ks: seq<string>, ra: map<string, Record>, tally: map<string, Record>)
    requires Distinct(ks) && forall k :: k in ks ==> k in ra
    ensures |RaPart(rule, ks, ra, tally)|
            == |MissingKeys(KeySet(ks), tally)| + |DifferingKeys(rule, AmountMismatch, KeySet(ks), ra, tally)|
               + |DifferingKeys(rule, DateMismatch, KeySet(ks), ra, tally)|
  {
    hide Differs, MissingKeys, DifferingKeys, KeySet;
    if ks == [] {
      NoKeys(rule, ra, tally);
    } else {
      var n := |ks| - 1;
      RaPartCounts(rule, ks[..n], ra, tally);
      LastKeyIsNew(ks);
      MissingStep(KeySet(ks[..n]), ks[n], tally);
      DifferingStep(rule, AmountMismatch, KeySet(ks[..n]), ks[n], ra, tally);
      DifferingStep(rule, DateMismatch, KeySet(ks[..n]), ks[n], ra, tally);
    }
  }

  lemma NoKeys(rule: Rule, ra: map<string, Record>, tally: map<string, Record>)
    ensures MissingKeys(KeySet([]), tally) == {} && forall kind :: DifferingKeys(rule, kind, KeySet([]), ra, tally) == {}
  {
  }

  lemma {:induction false} TallyPartCounts(ks: seq<string>, ra: map<string, Record>, tally: map<string, Record>)
    requires Distinct(ks) && forall k :: k in ks ==> k in tally
    ensures |TallyPart(ks, ra, tally)| == |MissingKeys(KeySet(ks), ra)|
  {
    hide MissingKeys, KeySet;
    if ks == [] {
      NoKeys(INVOICES, tally, ra);
    } else {
      var n := |ks| - 1;
      TallyPartCounts(ks[..n], ra, tally);
      LastKeyIsNew(ks);
      MissingStep(KeySet(ks[..n]), ks[n], ra);
    }
  }

  /** A report has one entry for each key on one side only, one for each shared key whose
      last records differ in amount, and one for each whose dates differ; no more. */
  lemma ReportCounts(rule: Rule, ra: seq<Record>, tally: seq<Record>)
    ensures var a, b := Final(ra, rule.raBlank), Final(tally, rule.tallyBlank);
            |Report(rule, ra, tally)|
            == |a.Keys - b.Keys| + |b.Keys - a.Keys|
               + |set k | k in a && k in b && Differs(rule, AmountMismatch, a[k], b[k])|
               + |set k | k in a && k in b && Differs(rule, DateMismatch, a[k], b[k])|
  {
    hide Differs, KeyOf, Indexed, Keys, Final, RaPart, TallyPart, KeySet, MissingKeys, DifferingKeys;
    KeysAreFinal(ra, rule.raBlank);
    KeysAreFinal(tally, rule.tallyBlank);
    var a, b := Final(ra, rule.raBlank), Final(tally, rule.tallyBlank);
    var ks, ls := Keys(ra, rule.raBlank), Keys(tally, rule.tallyBlank);
    RaPartCounts(rule, ks, a, b);
    TallyPartCounts(ls, a, b);
    KeySetIsIndex(ks, a);
    KeySetIsIndex(ls, b);
    SetsOfIndex(rule, a, b);
    SetsOfIndex(rule, b, a);
  }

  lemma KeySetIsIndex(ks: seq<string>, a: map<string, Record>)
    requires forall k :: k in ks <==> k in a
    ensures KeySet(ks) == a.Keys
  {
  }

  lemma SetsOfIndex(rule: Rule, a: map<string, Record>, b: map<string, Record>)
    ensures MissingKeys(a.Keys, b) == a.Keys - b.Keys
    ensures forall kind :: DifferingKeys(rule, kind, a.Keys, a, b) == set k | k in a && k in b && Differs(rule, kind, a[k], b[k])
  {
  }

  predicate Agree(rule: Rule, a: Record, b: Record) {
    KeyOf(a) == KeyOf(b) && !Differs(rule, AmountMismatch, a, b) && !Differs(rule, DateMismatch, a, b)
  }

  lemma NoneMeansEmpty<T>(s: set<T>)
    ensures |s| == 0 <==> s == {}
  {
  }

  /** The two indexes have the same keys and agree on each. */
  predicate IndexesAgree(rule: Rule, a: map<string, Record>, b: map<string, Record>) {
    a.Keys == b.Keys
    && forall k :: k in a && k in b ==> AgreeAt(rule, a, b, k)
  }

  lemma EmptyIffIndexesAgree(rule: Rule, ra: seq<Record>, tally: seq<Record>)
    ensures Report(rule, ra, tally) == [] <==> IndexesAgree(rule, Final(ra, rule.raBlank), Final(tally, rule.tallyBlank))
  {
    hide Differs, Final, Report;
    ReportCounts(rule, ra, tally);
    var a, b := Final(ra, rule.raBlank), Final(tally, rule.tallyBlank);
    NoneMeansEmpty(a.Keys - b.Keys);
    NoneMeansEmpty(b.Keys - a.Keys);
    NoneMeansEmpty(set k | k in a && k in b && Differs(rule, AmountMismatch, a[k], b[k]));
    NoneMeansEmpty(set k | k in a && k in b && Differs(rule, DateMismatch, a[k], b[k]));
  }

  /** Every last record of one list has an agreeing last record in the other. */
  predicate Paired(rule: Rule, xs: seq<Record>, xBlank: bool, ys: seq<Record>, yBlank: bool) {
    forall i :: 0 <= i < |xs| && IsLast(xs, xBlank, i) ==>
      exists j :: 0 <= j < |ys| && IsLast(ys, yBlank, j) && Agree(rule, xs[i], ys[j])
  }

  /** A report is empty exactly when the last records of every key pair off between the
      two lists and agree: amounts within five paise, and dates when both have one. */
  lemma EmptyReportIff(rule: Rule, ra: seq<Record>, tally: seq<Record>)
    ensures Report(rule, ra, tally) == []
            <==> Paired(rule, ra, rule.raBlank, tally, rule.tallyBlank) && Paired(rule, tally, rule.tallyBlank, ra, rule.raBlank)
  {
    hide Report, Paired, IndexesAgree;
    EmptyIffIndexesAgree(rule, ra, tally);
    var a, b := Final(ra, rule.raBlank), Final(tally, rule.tallyBlank);
    hide Final;
    if IndexesAgree(rule, a, b) {
      AgreeMeansPaired(rule, ra, rule.raBlank, tally, rule.tallyBlank);
      AgreeFlips(rule, a, b);
      AgreeMeansPaired(rule, tally, rule.tallyBlank, ra, rule.raBlank);
    } else if Paired(rule, ra, rule.raBlank, tally, rule.tallyBlank) && Paired(rule, tally, rule.tallyBlank, ra, rule.raBlank) {
      PairedMeansAgree(rule, ra, rule.raBlank, tally, rule.tallyBlank);
    }
  }

  lemma AgreeFlips(rule: Rule, a: map<string, Record>, b: map<string, Record>)
    requires IndexesAgree(rule, a, b)
    ensures IndexesAgree(rule, b, a)
  {
  }

  lemma AgreeMeansPaired(rule: Rule, xs: seq<Record>, xBlank: bool, ys: seq<Record>, yBlank: bool)
    requires IndexesAgree(rule, Final(xs, xBlank), Final(ys, yBlank))
    ensures Paired(rule, xs, xBlank, ys, yBlank)
  {
    hide Differs, KeyOf, Indexed, Final, IsLast;
    forall i | 0 <= i < |xs| && IsLast(xs, xBlank, i)
      ensures exists j :: 0 <= j < |ys| && IsLast(ys, yBlank, j) && Agree(rule, xs[i], ys[j])
    {
      LastIsFinal(xs, xBlank, i);
      var k := KeyOf(xs[i]);
      FinalIsLast(ys, yBlank, k);
      var j :| 0 <= j < |ys| && IsLast(ys, yBlank, j) && KeyOf(ys[j]) == k && ys[j] == Final(ys, yBlank)[k];
      assert Agree(rule, xs[i], ys[j]);
    }
  }

  lemma PairedMeansAgree(rule: Rule, xs: seq<Record>, xBlank: bool, ys: seq<Record>, yBlank: bool)
    requires Paired(rule, xs, xBlank, ys, yBlank) && Paired(rule, ys, yBlank, xs, xBlank)
    ensures IndexesAgree(rule, Final(xs, xBlank), Final(ys, yBlank))
  {
    hide Differs, Final, Paired;
    forall k | k in Final(xs, xBlank) ensures k in Final(ys, yBlank) && AgreeAt(rule, Final(xs, xBlank), Final(ys, yBlank), k) {
      PairedAt(rule, xs, xBlank, ys, yBlank, k);
    }
    forall k | k in Final(ys, yBlank) ensures k in Final(xs, xBlank) {
      PairedAt(rule, ys, yBlank, xs, xBlank, k);
    }
  }

  predicate AgreeAt(rule: Rule, a: map<string, Record>, b: map<string, Record>, k: string)
    requires k in a && k in b
  {
    !Differs(rule, AmountMismatch, a[k], b[k]) && !Differs(rule, DateMismatch, a[k], b[k])
  }

  lemma PairedAt(rule: Rule, xs: seq<Record>, xBlank: bool, ys: seq<Record>, yBlank: bool, k: string)
    requires Paired(rule, xs, xBlank, ys, yBlank) && k in Final(xs, xBlank)
    ensures k in Final(ys, yBlank) && AgreeAt(rule, Final(xs, xBlank), Final(ys, yBlank), k)
  {
    hide Differs, KeyOf, Indexed, Final, IsLast;
    FinalIsLast(xs, xBlank, k);
    var i :| 0 <= i < |xs| && IsLast(xs, xBlank, i) && KeyOf(xs[i]) == k && xs[i] == Final(xs, xBlank)[k];
    var j :| 0 <= j < |ys| && IsLast(ys, yBlank, j) && Agree(rule, xs[i], ys[j]);
    LastIsFinal(ys, yBlank, j);
  }

  function KeysReported(report: seq<Entry>, kind: Mismatch): set<string> {
    set e | e in report && e.kind == kind :: e.key
  }

  lemma {:induction false} RaPartReports(rule: Rule, ks: seq<string>, ra: map<string, Record>, tally: map<string, Record>)
    requires forall k :: k in ks ==> k in ra
    ensures KeysReported(RaPart(rule, ks, ra, tally), MissingInTally) == MissingKeys(KeySet(ks), tally)
    ensures KeysReported(RaPart(rule, ks, ra, tally), MissingInRentasst) == {}
  {
    hide Differs;
    if ks != [] {
      var n := |ks| - 1;
      RaPartReports(rule, ks[..n], ra, tally);
      var before, last := RaPart(rule, ks[..n], ra, tally), RaEntries(rule, ks[n], ra[ks[n]], tally);
      ReportedOfConcat(before, last, MissingInTally);
      ReportedOfConcat(before, last, MissingInRentasst);
      LastReported(rule, ks[n], ra[ks[n]], tally);
      hide KeysReported, RaEntries;
      MissingOfMore(ks, tally);
    }
  }

  lemma MissingOfMore(ks: seq<string>, other: map<string, Record>)
    requires ks != []
    ensures var n := |ks| - 1;
            MissingKeys(KeySet(ks), other) == MissingKeys(KeySet(ks[..n]), other) + if ks[n] in other then {} else {ks[n]}
  {
    assert forall x :: x in ks <==> x in ks[..|ks| - 1] || x == ks[|ks| - 1];
  }

  lemma LastReported(rule: Rule, k: string, a: Record, tally: map<string, Record>)
    ensures KeysReported(RaEntries(rule, k, a, tally), MissingInTally) == if k in tally then {} else {k}
    ensures KeysReported(RaEntries(rule, k, a, tally), MissingInRentasst) == {}
  {
  }

  lemma ReportedOfConcat(xs: seq<Entry>, ys: seq<Entry>, kind: Mismatch)
    ensures KeysReported(xs + ys, kind) == KeysReported(xs, kind) + KeysReported(ys, kind)
  {
  }

  lemma {:induction false} TallyPartReports(ks: seq<string>, ra: map<string, Record>, tally: map<string, Record>)
    requires forall k :: k in ks ==> k in tally
    ensures KeysReported(TallyPart(ks, ra, tally), MissingInRentasst) == MissingKeys(KeySet(ks), ra)
    ensures KeysReported(TallyPart(ks, ra, tally), MissingInTally) == {}
  {
    if ks != [] {
      var n := |ks| - 1;
      TallyPartReports(ks[..n], ra, tally);
      var before, last := TallyPart(ks[..n], ra, tally), TallyEntries(ks[n], tally[ks[n]], ra);
      ReportedOfConcat(before, last, MissingInTally);
      ReportedOfConcat(before, last, MissingInRentasst);
      LastMissing(ks[n], tally[ks[n]], ra);
      hide KeysReported, TallyEntries;
      MissingOfMore(ks, ra);
    }
  }

  lemma LastMissing(k: string, b: Record, ra: map<string, Record>)
    ensures KeysReported(TallyEntries(k, b, ra), MissingInRentasst) == if k in ra then {} else {k}
    ensures KeysReported(TallyEntries(k, b, ra), MissingInTally) == {}
  {
    if k !in ra {
      assert Entry(MissingInRentasst, k, FirstName(b.names)) in TallyEntries(k, b, ra);
    }
  }

  /** The two MISSING kinds report exactly the keys of one side only. */
  lemma MissingReported(rule: Rule, ra: seq<Record>, tally: seq<Record>)
    ensures var a, b := Final(ra, rule.raBlank), Final(tally, rule.tallyBlank);
            && KeysReported(Report(rule, ra, tally), MissingInTally) == a.Keys - b.Keys
            && KeysReported(Report(rule, ra, tally), MissingInRentasst) == b.Keys - a.Keys
  {
    hide KeyOf, Indexed, Keys, Final, RaPart, TallyPart, MissingKeys, KeySet, KeysReported;
    KeysAreFinal(ra, rule.raBlank);
    KeysAreFinal(tally, rule.tallyBlank);
    var a, b := Final(ra, rule.raBlank), Final(tally, rule.tallyBlank);
    var ks, ls := Keys(ra, rule.raBlank), Keys(tally, rule.tallyBlank);
    RaPartReports(rule, ks, a, b);
    TallyPartReports(ls, a, b);
    ReportedOfConcat(RaPart(rule, ks, a, b), TallyPart(ls, a, b), MissingInTally);
    ReportedOfConcat(RaPart(rule, ks, a, b), TallyPart(ls, a, b), MissingInRentasst);
    KeySetIsIndex(ks, a);
    KeySetIsIndex(ls, b);
    SetsOfIndex(rule, a, b);
    SetsOfIndex(rule, b, a);
  }

  /** Swapping the two equipment lists swaps the two MISSING sets. */
  lemma SwapSwapsMissing(xs: seq<Record>, ys: seq<Record>)
    ensures KeysReported(Report(EQUIPMENT, xs, ys), MissingInTally) == KeysReported(Report(EQUIPMENT, ys, xs), MissingInRentasst)
    ensures KeysReported(Report(EQUIPMENT, xs, ys), MissingInRentasst) == KeysReported(Report(EQUIPMENT, ys, xs), MissingInTally)
  {
    hide Report, Final;
    MissingReported(EQUIPMENT, xs, ys);
    MissingReported(EQUIPMENT, ys, xs);
  }

  // ---------- the five rules ----------

  lemma OfOne(r: Record, blank: bool)
    ensures Indexed(r, blank) ==> Keys([r], blank) == [KeyOf(r)] && Final([r], blank) == map[KeyOf(r) := r]
    ensures !Indexed(r, blank) ==> Keys([r], blank) == [] && Final([r], blank) == map[]
    ensures Keys([], blank) == [] && Final([], blank) == map[]
  {
    hide KeyOf, Indexed;
    assert [r][..0] == [];
  }

  lemma PartsOfOne(rule: Rule, k: string, ra: map<string, Record>, tally: map<string, Record>)
    ensures k in ra ==> RaPart(rule, [k], ra, tally) == RaEntries(rule, k, ra[k], tally)
    ensures k in tally ==> TallyPart([k], ra, tally) == TallyEntries(k, tally[k], ra)
  {
    hide RaEntries, TallyEntries;
    assert [k][..0] == [];
    EmptyParts(rule, ra, tally);
  }

  lemma ReportOfPair(rule: Rule, a: Record, b: Record)
    requires KeyOf(a) == KeyOf(b) && FirstName(a.names) != "" && FirstName(b.names) != ""
    ensures Report(rule, [a], [b]) == RaEntries(rule, KeyOf(a), a, map[KeyOf(b) := b])
  {
    OfOne(a, rule.raBlank);
    OfOne(b, rule.tallyBlank);
    PartsOfOne(rule, KeyOf(a), map[KeyOf(a) := a], map[KeyOf(b) := b]);
    hide KeyOf, AmountsDiffer, DatesDiffer, Keys, Final, FirstName, RaPart, TallyPart, RaEntries;
  }

  /** Of two records of one key, only invoices and payments have their amounts compared,
      to within five paise, and only invoices their dates. */
  lemma ComparedIff(a: Record, b: Record)
    requires KeyOf(a) == KeyOf(b) && FirstName(a.names) != "" && FirstName(b.names) != ""
    ensures Report(CUSTOMERS, [a], [b]) == Report(EQUIPMENT, [a], [b]) == Report(RENTAL_ORDERS, [a], [b]) == []
    ensures var near := -5 <= Round(FirstNonZero(a.amounts, 0.0)) - Round(FirstNonZero(b.amounts, 0.0)) <= 5;
            && (Report(PAYMENTS, [a], [b]) == [] <==> near)
            && (Report(INVOICES, [a], [b]) == [] <==> near && !DatesDiffer(a, b))
  {
    ReportOfPair(CUSTOMERS, a, b);
    ReportOfPair(EQUIPMENT, a, b);
    ReportOfPair(RENTAL_ORDERS, a, b);
    ReportOfPair(PAYMENTS, a, b);
    ReportOfPair(INVOICES, a, b);
    hide KeyOf, FirstName, DatesDiffer, Report, Round;
  }

  lemma ReportOfAlone(rule: Rule, r: Record)
    ensures Report(rule, [r], []) == if Indexed(r, rule.raBlank) then [Entry(MissingInTally, KeyOf(r), r.id)] else []
    ensures Report(rule, [], [r]) ==
            if Indexed(r, rule.tallyBlank) then [Entry(MissingInRentasst, KeyOf(r), FirstName(r.names))] else []
  {
    OfOne(r, rule.raBlank);
    OfOne(r, rule.tallyBlank);
    PartsOfOne(rule, KeyOf(r), map[KeyOf(r) := r], map[]);
    PartsOfOne(rule, KeyOf(r), map[], map[KeyOf(r) := r]);
    EmptyParts(rule, map[KeyOf(r) := r], map[]);
    EmptyParts(rule, map[], map[KeyOf(r) := r]);
    EmptyParts(rule, map[], map[]);
    hide KeyOf, Keys, Final, FirstName, RaPart, TallyPart;
  }

  /** A record without a key is reported missing among invoices, and among the customers
      of RentAsst; the other reports pass over it. */
  lemma BlankReportedIff(r: Record)
    requires FirstName(r.names) == ""
    ensures Report(INVOICES, [r], []) != [] && Report(INVOICES, [], [r]) != []
    ensures Report(CUSTOMERS, [r], []) != [] && Report(CUSTOMERS, [], [r]) == []
    ensures forall rule :: rule in {PAYMENTS, EQUIPMENT, RENTAL_ORDERS} ==> Report(rule, [r], []) == Report(rule, [], [r]) == []
  {
    ReportOfAlone(INVOICES, r);
    ReportOfAlone(CUSTOMERS, r);
    ReportOfAlone(PAYMENTS, r);
    ReportOfAlone(EQUIPMENT, r);
    ReportOfAlone(RENTAL_ORDERS, r);
    hide KeyOf, FirstName, Report;
  }

  // ---------- dates ----------

  predicate DashFree(s: string) {
    forall c :: c in s ==> c != '-'
  }

  lemma {:induction false} DashesDropped(s: string, t: string)
    ensures WithoutDashes(s + t) == WithoutDashes(s) + WithoutDashes(t)
  {
    if s == "" {
      assert s + t == t;
    } else {
      assert (s + t)[1..] == s[1..] + t;
      DashesDropped(s[1..], t);
    }
  }

  lemma {:induction false} NothingDropped(s: string)
    requires DashFree(s)
    ensures WithoutDashes(s) == s
  {
    if s != "" {
      assert s == [s[0]] + s[1..] && s[0] in s;
      assert forall c :: c in s[1..] ==> c in s;
      NothingDropped(s[1..]);
    }
  }

  /** A date with dashes, and perhaps a time after it, and one without are of the same day
      exactly when year, month and day are the same characters. */
  lemma DatesDifferIff(a: Record, b: Record, year: string, month: string, day: string, time: string, plain: string)
    requires |year| == 4 && |month| == |day| == 2 && DashFree(year) && DashFree(month) && DashFree(day)
    requires Strip(FirstName(a.dates)) == year + "-" + month + "-" + day + time
    requires Strip(FirstName(b.dates)) == plain && |plain| == 8 && DashFree(plain)
    ensures DatesDiffer(a, b) <==> plain != year + month + day
    ensures DatesDiffer(b, a) <==> DatesDiffer(a, b)
  {
    var date := year + "-" + month + "-" + day;
    assert CleanDate(a) == date && CleanDate(b) == plain;
    hide CleanDate;
    DashesDropped(year + "-" + month + "-", day);
    DashesDropped(year + "-" + month, "-");
    DashesDropped(year + "-", month);
    DashesDropped(year, "-");
    NothingDropped(year);
    NothingDropped(month);
    NothingDropped(day);
    NothingDropped(plain);
    assert WithoutDashes("-") == "";
    assert WithoutDashes(date) == year + month + day;
    hide WithoutDashes;
  }
}
