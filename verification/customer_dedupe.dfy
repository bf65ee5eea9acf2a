/** _dedupe_by_tally_name of app/sync/customers.py: Tally ledgers are matched by name, so
    only the most complete customer of each normalised name is pushed and the others are
    dead-lettered. */
module CustomerDedupe {
  import opened Text

  /** "" stands for an absent field. */
  datatype Customer = Customer(id: string, name: string, businessName: string, hasAddress: bool, mobile: string,
                               hasGst: bool, hasEmail: bool)

  // ---------- names ----------

  /** str.split(): the maximal runs of non-space characters. */
  function Words(s: string): seq<string> {
    if s == "" then []
    else
      var rest := Words(s[1..]);
      if IsSpace(s[0]) then rest
      else if |s| == 1 || IsSpace(s[1]) || rest == [] then [[s[0]]] + rest
      else [[s[0]] + rest[0]] + rest[1..]
  }

  function Join(ws: seq<string>): string {
    if ws == [] then "" else if |ws| == 1 then ws[0] else ws[0] + " " + Join(ws[1..])
  }

  function NormalizeLedgerName(name: string): string {
    Join(Words(Lower(Strip(name))))
  }

  function KeyOf(c: Customer): string {
    NormalizeLedgerName(Or(c.name, c.businessName))
  }

  // ---------- completeness ----------

  function DigitCount(s: string): nat {
    if s == "" then 0 else (if '0' <= s[0] <= '9' then 1 else 0) + DigitCount(s[1..])
  }

  datatype Score = Score(address: bool, mobile: bool, gst: bool, email: bool)

  function ScoreOf(c: Customer): Score {
    Score(c.hasAddress, DigitCount(c.mobile) >= 10, c.hasGst, c.hasEmail)
  }

  /** Python's tuple order, False below True. */
  predicate Below(a: Score, b: Score) {
    if a.address != b.address then b.address
    else if a.mobile != b.mobile then b.mobile
    else if a.gst != b.gst then b.gst
    else !a.email && b.email
  }

  // ---------- sorted(group, key=score, reverse=True) is stable ----------

  function Insert(c: Customer, ranked: seq<Customer>): seq<Customer> {
    if ranked == [] then [c]
    else if Below(ScoreOf(ranked[0]), ScoreOf(c)) then [c] + ranked
    else [ranked[0]] + Insert(c, ranked[1..])
  }

  function Ranked(group: seq<Customer>): seq<Customer> {
    if group == [] then [] else Insert(group[|group| - 1], Ranked(group[..|group| - 1]))
  }

  lemma {:induction false} InsertKeeps(c: Customer, ranked: seq<Customer>)
    ensures multiset(Insert(c, ranked)) == multiset(ranked) + multiset{c}
    ensures |Insert(c, ranked)| == |ranked| + 1
    ensures Insert(c, ranked)[0] == if ranked == [] || Below(ScoreOf(ranked[0]), ScoreOf(c)) then c else ranked[0]
  {
    hide ScoreOf, Below, DigitCount;
    if ranked != [] {
      assert ranked == [ranked[0]] + ranked[1..];
      if !Below(ScoreOf(ranked[0]), ScoreOf(c)) {
        InsertKeeps(c, ranked[1..]);
      }
    }
  }

  lemma {:induction false} RankedKeeps(group: seq<Customer>)
    ensures multiset(Ranked(group)) == multiset(group) && |Ranked(group)| == |group|
  {
    hide Insert, ScoreOf, Below;
    if group != [] {
      var n := |group| - 1;
      RankedKeeps(group[..n]);
      InsertKeeps(group[n], Ranked(group[..n]));
      assert Ranked(group) == Insert(group[n], Ranked(group[..n]));
      hide Ranked;
      assert group == group[..n] + [group[n]];
    }
  }

  /** Position m holds the first of the most complete. */
  predicate FirstBest(group: seq<Customer>, m: nat) {
    && m < |group|
    && (forall j :: 0 <= j < |group| ==> !Below(ScoreOf(group[m]), ScoreOf(group[j])))
    && (forall j :: 0 <= j < m ==> Below(ScoreOf(group[j]), ScoreOf(group[m])))
  }

  /** Tuple order is total: what is not above b is below whatever b is below. */
  lemma BelowIsLinear(a: Score, b: Score, c: Score)
    ensures !Below(b, a) && Below(b, c) ==> Below(a, c)
    ensures !Below(a, a)
  {
  }

  /** One more customer wins only if strictly more complete. */
  lemma FirstBestOfMore(group: seq<Customer>, k: nat)
    requires |group| > 1 && FirstBest(group[..|group| - 1], k)
    ensures FirstBest(group, if Below(ScoreOf(group[k]), ScoreOf(group[|group| - 1])) then |group| - 1 else k)
  {
  }

  lemma {:induction false} WinnerIsFirstBest(group: seq<Customer>) returns (m: nat)
    requires group != []
    ensures |Ranked(group)| == |group| && FirstBest(group, m) && Ranked(group)[0] == group[m]
  {
    hide Below, ScoreOf, Insert;
    var n := |group| - 1;
    RankedKeeps(group);
    InsertKeeps(group[n], Ranked(group[..n]));
    if n == 0 {
      m := 0;
      BelowIsLinear(ScoreOf(group[0]), ScoreOf(group[0]), ScoreOf(group[0]));
    } else {
      RankedKeeps(group[..n]);
      var k := WinnerIsFirstBest(group[..n]);
      FirstBestOfMore(group, k);
      assert group[..n][k] == group[k];
      m := if Below(ScoreOf(group[k]), ScoreOf(group[n])) then n else k;
      hide FirstBest;
    }
  }

  // ---------- grouping: by_name.setdefault(key, []).append(item) ----------

  /** The keys, in first-seen order; a customer without a name is dropped. */
  function Names(items: seq<Customer>): seq<string> {
    if items == [] then []
    else
      var before, k := Names(items[..|items| - 1]), KeyOf(items[|items| - 1]);
      if k != "" && k !in before then before + [k] else before
  }

  function Group(items: seq<Customer>, k: string): seq<Customer> {
    if items == [] then []
    else
      var before, c := Group(items[..|items| - 1], k), items[|items| - 1];
      if KeyOf(c) == k then before + [c] else before
  }

  function Winners(items: seq<Customer>, ks: seq<string>): seq<Customer> {
    if ks == [] then []
    else
      var ranked := Ranked(Group(items, ks[|ks| - 1]));
      Winners(items, ks[..|ks| - 1]) + if ranked == [] then [] else [ranked[0]]
  }

  function Losers(items: seq<Customer>, ks: seq<string>): seq<Customer> {
    if ks == [] then []
    else
      var ranked := Ranked(Group(items, ks[|ks| - 1]));
      Losers(items, ks[..|ks| - 1]) + if ranked == [] then [] else ranked[1..]
  }

  predicate NoRepeats(ks: seq<string>) {
    forall i, j :: 0 <= i < j < |ks| ==> ks[i] != ks[j]
  }

  lemma {:induction false} NamesAreKeys(items: seq<Customer>)
    ensures NoRepeats(Names(items)) && "" !in Names(items)
    ensures forall k :: k in Names(items) <==> k != "" && Group(items, k) != []
    ensures forall i :: 0 <= i < |items| && KeyOf(items[i]) != "" ==> KeyOf(items[i]) in Names(items)
  {
    hide KeyOf;
    if items != [] {
      var n := |items| - 1;
      NamesAreKeys(items[..n]);
      forall i | 0 <= i < |items| && KeyOf(items[i]) != "" ensures KeyOf(items[i]) in Names(items) {
        if i < n {
          assert items[..n][i] == items[i];
        }
      }
    }
  }

  // ---------- the program ----------

  method GroupByName(items: seq<Customer>) returns (names: seq<string>, groups: map<string, seq<Customer>>)
    ensures names == Names(items)
    ensures forall k :: k in groups <==> k in names
    ensures forall k :: k in groups ==> groups[k] == Group(items, k)
  {
    hide KeyOf;
    names, groups := [], map[];
    for i := 0 to |items|
      invariant names == Names(items[..i])
      invariant forall k :: k in groups <==> k in names
      invariant forall k :: k in groups ==> groups[k] == Group(items[..i], k)
    {
      assert items[..i + 1][..i] == items[..i];
      NamesAreKeys(items[..i]);
      var k := KeyOf(items[i]);
      if k != "" {
        if k !in groups {
          names := names + [k];
          groups := groups[k := []];
        }
        groups := groups[k := groups[k] + [items[i]]];
      }
    }
    assert items[..|items|] == items;
  }

  method DedupeByTallyName(items: seq<Customer>) returns (result: seq<Customer>, letters: seq<Customer>)
    ensures result == Winners(items, Names(items)) && letters == Losers(items, Names(items))
  {
    hide KeyOf, Ranked, Group;
    var names, groups := GroupByName(items);
    NamesAreKeys(items);
    result, letters := [], [];
    for i := 0 to |names|
      invariant result == Winners(items, names[..i]) && letters == Losers(items, names[..i])
    {
      assert names[..i + 1][..i] == names[..i];
      var group := groups[names[i]];
      RankedKeeps(group);
      if |group| == 1 {
        RankedOfOne(group);
        result := result + [group[0]];
      } else {
        var ranked := Ranked(group);
        result := result + [ranked[0]];
        letters := letters + ranked[1..];
      }
    }
    assert names[..|names|] == names;
  }

  lemma RankedOfOne(group: seq<Customer>)
    requires |group| == 1
    ensures Ranked(group) == group && Ranked(group)[1..] == []
  {
  }

  // ---------- conservation ----------

  function Restricted(items: seq<Customer>, ks: set<string>): seq<Customer> {
    if items == [] then []
    else Restricted(items[..|items| - 1], ks) + if KeyOf(items[|items| - 1]) in ks then [items[|items| - 1]] else []
  }

  /** The customers that have a name. */
  function Named(items: seq<Customer>): seq<Customer> {
    if items == [] then []
    else Named(items[..|items| - 1]) + if KeyOf(items[|items| - 1]) != "" then [items[|items| - 1]] else []
  }

  lemma {:induction false} RestrictedSplits(items: seq<Customer>, ks: set<string>, k: string)
    requires k !in ks
    ensures multiset(Restricted(items, ks + {k})) == multiset(Restricted(items, ks)) + multiset(Group(items, k))
  {
    hide KeyOf;
    if items != [] {
      RestrictedSplits(items[..|items| - 1], ks, k);
    }
  }

  lemma {:induction false} RestrictedToNone(items: seq<Customer>)
    ensures Restricted(items, {}) == []
  {
    hide KeyOf;
    if items != [] {
      RestrictedToNone(items[..|items| - 1]);
    }
  }

  lemma {:induction false} RestrictedToAll(items: seq<Customer>, ks: set<string>)
    requires "" !in ks && forall i :: 0 <= i < |items| && KeyOf(items[i]) != "" ==> KeyOf(items[i]) in ks
    ensures Restricted(items, ks) == Named(items)
  {
    hide KeyOf;
    if items != [] {
      var n := |items| - 1;
      assert forall i :: 0 <= i < n ==> items[..n][i] == items[i];
      RestrictedToAll(items[..n], ks);
    }
  }

  function Elements(ks: seq<string>): set<string> {
    set k | k in ks
  }

  lemma GroupIsKeptOrLost(items: seq<Customer>, ks: seq<string>)
    requires ks != []
    ensures var n := |ks| - 1;
            multiset(Winners(items, ks)) + multiset(Losers(items, ks))
            == multiset(Winners(items, ks[..n])) + multiset(Losers(items, ks[..n])) + multiset(Group(items, ks[n]))
  {
    hide KeyOf, Ranked, Group;
    var ranked := Ranked(Group(items, ks[|ks| - 1]));
    RankedKeeps(Group(items, ks[|ks| - 1]));
    if ranked != [] {
      assert ranked == [ranked[0]] + ranked[1..];
    }
  }

  lemma {:induction false} KeptAndLost(items: seq<Customer>, ks: seq<string>)
    requires NoRepeats(ks)
    ensures multiset(Winners(items, ks)) + multiset(Losers(items, ks)) == multiset(Restricted(items, Elements(ks)))
  {
    hide KeyOf, Restricted, Group;
    if ks == [] {
      RestrictedToNone(items);
      assert Elements(ks) == {};
    } else {
      var n := |ks| - 1;
      KeptAndLost(items, ks[..n]);
      GroupIsKeptOrLost(items, ks);
      LastElement(ks);
      hide Winners, Losers, Elements, NoRepeats;
      RestrictedSplits(items, Elements(ks[..n]), ks[n]);
    }
  }

  lemma LastElement(ks: seq<string>)
    requires ks != [] && NoRepeats(ks)
    ensures Elements(ks) == Elements(ks[..|ks| - 1]) + {ks[|ks| - 1]} && ks[|ks| - 1] !in Elements(ks[..|ks| - 1])
  {
  }

  /** Every named customer is either pushed or dead-lettered, exactly once. */
  lemma DedupeConserves(items: seq<Customer>)
    ensures multiset(Winners(items, Names(items))) + multiset(Losers(items, Names(items))) == multiset(Named(items))
  {
    hide KeyOf, Winners, Losers, Restricted, Named;
    NamesAreKeys(items);
    KeptAndLost(items, Names(items));
    RestrictedToAll(items, Elements(Names(items)));
  }

  // ---------- the winners ----------

  lemma {:induction false} GroupHasKey(items: seq<Customer>, k: string)
    ensures forall c :: c in Group(items, k) ==> KeyOf(c) == k
    ensures forall i :: 0 <= i < |items| && KeyOf(items[i]) == k ==> items[i] in Group(items, k)
  {
    hide KeyOf;
    if items != [] {
      var n := |items| - 1;
      GroupHasKey(items[..n], k);
      assert forall i :: 0 <= i < n ==> items[..n][i] == items[i];
    }
  }

  lemma WinnerOfGroup(items: seq<Customer>, k: string)
    requires k in Names(items)
    ensures Ranked(Group(items, k)) != [] && KeyOf(Ranked(Group(items, k))[0]) == k
  {
    hide KeyOf, Ranked;
    NamesAreKeys(items);
    RankedKeeps(Group(items, k));
    GroupHasKey(items, k);
    var ranked := Ranked(Group(items, k));
    assert ranked[0] in multiset(ranked);
    assert ranked[0] in Group(items, k);
  }

  lemma {:induction false} WinnersByName(items: seq<Customer>, n: nat)
    requires n <= |Names(items)|
    ensures var ks := Names(items)[..n];
            |Winners(items, ks)| == n
            && forall i :: 0 <= i < n ==> Winners(items, ks)[i] == Winner(items, ks[i]) && KeyOf(Winners(items, ks)[i]) == ks[i]
  {
    hide KeyOf, Ranked, Group;
    if n > 0 {
      var ks := Names(items)[..n];
      assert ks[..n - 1] == Names(items)[..n - 1];
      WinnersByName(items, n - 1);
      WinnerOfGroup(items, ks[n - 1]);
    }
  }

  function Winner(items: seq<Customer>, k: string): Customer
    requires k in Names(items)
  {
    WinnerOfGroup(items, k);
    Ranked(Group(items, k))[0]
  }

  /** One customer is pushed for each name, in the order the names first appear; names
      never repeat; and each winner is the first of the most complete of its name. */
  lemma DedupeChooses(items: seq<Customer>, i: nat)
    requires i < |Names(items)|
    ensures var result, k := Winners(items, Names(items)), Names(items)[i];
            && |result| == |Names(items)| && KeyOf(result[i]) == k != ""
            && (forall j :: 0 <= j < |result| && j != i ==> KeyOf(result[j]) != k)
            && exists m: nat :: FirstBest(Group(items, k), m) && result[i] == Group(items, k)[m]
  {
    hide KeyOf, Ranked, FirstBest, Names;
    NamesAreKeys(items);
    WinnersByName(items, |Names(items)|);
    assert Names(items)[..|Names(items)|] == Names(items);
    var m := WinnerIsFirstBest(Group(items, Names(items)[i]));
  }

  // ---------- once is enough ----------

  predicate DistinctNamed(items: seq<Customer>) {
    && (forall i :: 0 <= i < |items| ==> KeyOf(items[i]) != "")
    && (forall i, j :: 0 <= i < j < |items| ==> KeyOf(items[i]) != KeyOf(items[j]))
  }

  lemma {:induction false} NamesOfDistinct(items: seq<Customer>)
    requires DistinctNamed(items)
    ensures |Names(items)| == |items| && forall i :: 0 <= i < |items| ==> Names(items)[i] == KeyOf(items[i])
  {
    hide KeyOf;
    if items != [] {
      var n := |items| - 1;
      assert forall i :: 0 <= i < n ==> items[..n][i] == items[i];
      NamesOfDistinct(items[..n]);
    }
  }

  lemma {:induction false} GroupOfDistinct(items: seq<Customer>, i: nat)
    requires DistinctNamed(items) && i < |items|
    ensures Group(items, KeyOf(items[i])) == [items[i]]
  {
    hide KeyOf;
    var n := |items| - 1;
    assert forall j :: 0 <= j < n ==> items[..n][j] == items[j];
    if i == n {
      NobodyElse(items[..n], KeyOf(items[n]));
    } else {
      GroupOfDistinct(items[..n], i);
    }
  }

  lemma {:induction false} NobodyElse(items: seq<Customer>, k: string)
    requires forall j :: 0 <= j < |items| ==> KeyOf(items[j]) != k
    ensures Group(items, k) == []
  {
    hide KeyOf;
    if items != [] {
      NobodyElse(items[..|items| - 1], k);
    }
  }

  lemma {:induction false} DistinctStay(items: seq<Customer>, ks: seq<string>)
    requires |ks| <= |items| && forall i :: 0 <= i < |ks| ==> Group(items, ks[i]) == [items[i]]
    ensures Winners(items, ks) == items[..|ks|] && Losers(items, ks) == []
  {
    hide KeyOf, Group, Ranked;
    if ks != [] {
      var n := |ks| - 1;
      DistinctStay(items, ks[..n]);
      RankedOfOne(Group(items, ks[n]));
      assert items[..n + 1] == items[..n] + [items[n]];
    }
  }

  /** Deduping what was deduped keeps it all, in order, and dead-letters nothing. */
  lemma DedupeIsIdempotent(items: seq<Customer>)
    ensures var once := Winners(items, Names(items));
            Winners(once, Names(once)) == once && Losers(once, Names(once)) == []
  {
    hide KeyOf, Names, Ranked, Group, Losers, Winners;
    var once := Winners(items, Names(items));
    NamesAreKeys(items);
    WinnersByName(items, |Names(items)|);
    assert Names(items)[..|Names(items)|] == Names(items);
    assert DistinctNamed(once);
    NamesOfDistinct(once);
    forall i | 0 <= i < |once| ensures Group(once, Names(once)[i]) == [once[i]] {
      GroupOfDistinct(once, i);
    }
    DistinctStay(once, Names(once));
    assert once[..|once|] == once;
  }

  // ---------- names and completeness, on the payload ----------

  predicate Bare(w: string) {
    w != "" && forall c :: c in w ==> !IsSpace(c)
  }

  predicate AllBare(ws: seq<string>) {
    forall i :: 0 <= i < |ws| ==> Bare(ws[i])
  }

  /** A text without spaces is one word, and a space separates words: that is all that
      decides the words of a text. */
  lemma {:induction false} BareIsOneWord(w: string)
    requires Bare(w)
    ensures Words(w) == [w]
  {
    if |w| > 1 {
      BareIsOneWord(w[1..]);
      assert w == [w[0]] + w[1..];
    } else {
      assert w == [w[0]] && w[1..] == "";
    }
  }

  lemma {:induction false} SpaceSeparates(a: string, c: char, b: string)
    requires IsSpace(c)
    ensures Words(a + [c] + b) == Words(a) + Words(b)
    decreases |a|
  {
    var s := a + [c] + b;
    if a == "" {
      assert s[1..] == b;
    } else {
      assert s[1..] == a[1..] + [c] + b;
      SpaceSeparates(a[1..], c, b);
      WordsStart(a[1..]);
    }
  }

  /** A text that starts with a visible character has a first word. */
  lemma WordsStart(s: string)
    ensures s != "" && !IsSpace(s[0]) ==> Words(s) != []
  {
  }

  lemma {:induction false} WordsAreBare(s: string)
    ensures AllBare(Words(s))
  {
    if s != "" {
      WordsAreBare(s[1..]);
    }
  }

  lemma {:induction false} WordsOfJoined(ws: seq<string>)
    requires AllBare(ws)
    ensures Words(Join(ws)) == ws
  {
    if |ws| == 1 {
      BareIsOneWord(ws[0]);
    } else if ws != [] {
      WordsOfJoined(ws[1..]);
      BareIsOneWord(ws[0]);
      SpaceSeparates(ws[0], ' ', Join(ws[1..]));
      assert ws == [ws[0]] + ws[1..];
    }
  }

  /** Two customers compete for one ledger exactly when their names have the same words,
      whatever the case and the spaces between and around them. */
  lemma SameLedgerIff(a: string, b: string)
    ensures NormalizeLedgerName(a) == NormalizeLedgerName(b) <==> Words(Lower(Strip(a))) == Words(Lower(Strip(b)))
    ensures Words(NormalizeLedgerName(a)) == Words(Lower(Strip(a)))
  {
    hide Words, Join;
    WordsAreBare(Lower(Strip(a)));
    WordsAreBare(Lower(Strip(b)));
    WordsOfJoined(Words(Lower(Strip(a))));
    WordsOfJoined(Words(Lower(Strip(b))));
  }

  predicate TenDigits(c: Customer) {
    DigitCount(c.mobile) >= 10
  }

  /** What decides between two customers: an address, then a mobile of ten digits or more,
      then a GST number, then an email. */
  predicate MoreComplete(a: Customer, b: Customer) {
    || (b.hasAddress && !a.hasAddress)
    || (b.hasAddress == a.hasAddress && TenDigits(b) && !TenDigits(a))
    || (b.hasAddress == a.hasAddress && TenDigits(b) == TenDigits(a) && b.hasGst && !a.hasGst)
    || (b.hasAddress == a.hasAddress && TenDigits(b) == TenDigits(a) && b.hasGst == a.hasGst && b.hasEmail && !a.hasEmail)
  }

  /** Of two customers of one ledger the second is pushed if and only if it is more
      complete, and the other one is dead-lettered. */
  lemma RivalWinsIff(a: Customer, b: Customer)
    requires KeyOf(a) == KeyOf(b) != ""
    ensures var names := Names([a, b]);
            if MoreComplete(a, b) then Winners([a, b], names) == [b] && Losers([a, b], names) == [a]
            else Winners([a, b], names) == [a] && Losers([a, b], names) == [b]
  {
    var k := KeyOf(a);
    PairIsGrouped(a, b);
    hide KeyOf, Group, Names;
    PairIsRanked(a, b);
    hide Ranked;
    assert [k][..0] == [];
    assert Winners([a, b], []) == [] && Losers([a, b], []) == [];
    assert Winners([a, b], [k]) == [Ranked([a, b])[0]] && Losers([a, b], [k]) == Ranked([a, b])[1..];
  }

  lemma PairIsGrouped(a: Customer, b: Customer)
    requires KeyOf(a) == KeyOf(b) != ""
    ensures Names([a, b]) == [KeyOf(a)] && Group([a, b], KeyOf(a)) == [a, b]
  {
    hide KeyOf;
    var k := KeyOf(a);
    assert [a, b][..1] == [a] && [a][..0] == [];
    assert Names([]) == [] && Group([], k) == [];
    assert Names([a]) == [k] && Group([a], k) == [a];
  }

  lemma PairIsRanked(a: Customer, b: Customer)
    ensures Ranked([a, b]) == if MoreComplete(a, b) then [b, a] else [a, b]
  {
    hide DigitCount;
    assert [a, b][..1] == [a] && [a][..0] == [] && [a][1..] == [];
    assert Ranked([]) == [] && Ranked([a]) == [a];
    assert Insert(b, []) == [b];
    assert Ranked([a, b]) == Insert(b, [a]);
  }
}
