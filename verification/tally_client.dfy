/** TallyClient of app/connectors/tally/client.py: how a voucher is sent, what the client
    learns from rejections, and its existence cache. Tally's replies are arbitrary: the
    k-th import ever sent gets `imports(k)`, the k-th existence query `queries(k)`, and
    `asked` lists what the queries were about. */
module TallyClients {
  import opened Text
  import opened Wrappers
  import opened Markers

  /** A rejection's message may name a missing voucher date, and may be of the kind that
      leaves the identifier stuck. Broken is any other exception. */
  datatype Reply = Success | Rejected(dateMissing: bool, stuck: bool) | Broken

  datatype Answer = Answered(present: bool) | BadStatus | Raised

  datatype Shape = Native | Plain | InvoiceShape | ReceiptShape

  /** `queried` counts the existence queries made before it was sent. */
  datatype Import = Import(marker: string, create: bool, shape: Shape, edu: bool, queried: nat)

  datatype Tally = Tally(imports: nat -> Reply, queries: nat -> Answer)

  datatype Client = Client(
    eduMode: bool,
    orderProcessing: Option<bool>,
    cache: map<(string, string), bool>,
    asked: seq<(string, string)>,
    sent: seq<Import>
  )

  datatype Call = SyncOrder(id: string) | SyncInvoice(id: string) | SyncPayment(id: string)

  function CacheKey(entity: string, identifier: string): (string, string) {
    (Strip(Lower(entity)), Lower(Strip(identifier)))
  }

  // ---------- the calls, as functions of the client's state ----------

  function Check(t: Tally, c: Client, entity: string, id: string): (Client, bool) {
    var key := CacheKey(entity, id);
    if id == "" then (c, true)
    else if key in c.cache then (c, c.cache[key])
    else
      var c' := c.(asked := c.asked + [key]);
      match t.queries(|c.asked|)
      case Answered(present) => (c'.(cache := c.cache[key := present]), present)
      case BadStatus => (c', false)
      case Raised => (c', true)
  }

  function SendXml(t: Tally, c: Client, i: Import): (Client, Reply) {
    (c.(sent := c.sent + [i]), t.imports(|c.sent|))
  }

  function SendVoucher(t: Tally, c: Client, marker: string, create: bool, shape: Shape): (Client, Reply) {
    var (c1, r1) := SendXml(t, c, Import(marker, create, shape, c.eduMode, |c.asked|));
    if r1.Rejected? && r1.dateMissing && !c.eduMode
    then SendXml(t, c1.(eduMode := true), Import(marker, create, shape, true, |c.asked|))
    else (c1, r1)
  }

  function Attempt(t: Tally, c: Client, marker: string): (Client, Reply) {
    var (c1, present) := Check(t, c, "rental_orders", marker);
    if c.orderProcessing.Some? && !c.orderProcessing.value then SendVoucher(t, c1, marker, !present, Plain)
    else
      var (c2, r) := SendVoucher(t, c1, marker, !present, Native);
      if r.Broken? || c.orderProcessing.Some? then (c2, r)
      else (c2.(orderProcessing := Some(r.Success?)), r)
  }

  function AfterCall(t: Tally, c: Client, call: Call): (Client, Reply) {
    match call
    case SyncOrder(id) =>
      var (c1, r) := Attempt(t, c, Marker(Order, id, false));
      if r.Rejected? && r.stuck then Attempt(t, c1, Marker(Order, id, true)) else (c1, r)
    case SyncInvoice(id) =>
      var (c1, present) := Check(t, c, "invoices", Marker(Invoice, id, false));
      SendVoucher(t, c1, Marker(Invoice, id, false), !present, InvoiceShape)
    case SyncPayment(id) =>
      var (c1, present) := Check(t, c, "payments", Marker(Payment, id, false));
      SendVoucher(t, c1, Marker(Payment, id, false), !present, ReceiptShape)
  }

  // ---------- the program ----------

  class TallyClient {
    const tally: Tally
    var eduMode: bool
    var orderProcessing: Option<bool>
    var cache: map<(string, string), bool>
    var asked: seq<(string, string)>
    var sent: seq<Import>

    constructor (tally: Tally, eduMode: bool, orderProcessing: Option<bool>)
      ensures this.tally == tally && View() == Client(eduMode, orderProcessing, map[], [], [])
    {
      this.tally, this.eduMode, this.orderProcessing := tally, eduMode, orderProcessing;
      cache, asked, sent := map[], [], [];
    }

    ghost function View(): Client
      reads this
    {
      Client(eduMode, orderProcessing, cache, asked, sent)
    }

    method CheckExists(entity: string, id: string) returns (present: bool)
      modifies this`cache, this`asked
      ensures (View(), present) == Check(tally, old(View()), entity, id)
    {
      if id == "" {
        return true;
      }
      var key := CacheKey(entity, id);
      if key in cache {
        return cache[key];
      }
      var answer := tally.queries(|asked|);
      asked := asked + [key];
      match answer {
        case Answered(p) =>
          cache := cache[key := p];
          return p;
        case Raised => return true;
        case BadStatus => return false;
      }
    }

    method Post(i: Import) returns (r: Reply)
      modifies this`sent
      ensures (View(), r) == SendXml(tally, old(View()), i)
    {
      r := tally.imports(|sent|);
      sent := sent + [i];
    }

    method SendVoucherWithEduFallback(marker: string, create: bool, shape: Shape) returns (r: Reply)
      modifies this`sent, this`eduMode
      ensures (View(), r) == SendVoucher(tally, old(View()), marker, create, shape)
    {
      var edu := eduMode;
      r := Post(Import(marker, create, shape, edu, |asked|));
      if r.Rejected? && r.dateMissing && !edu {
        eduMode := true;
        r := Post(Import(marker, create, shape, true, |asked|));
      }
    }

    method AttemptSyncRentalOrder(marker: string) returns (r: Reply)
      modifies this
      ensures (View(), r) == Attempt(tally, old(View()), marker)
    {
      hide Check, SendVoucher;
      var present := CheckExists("rental_orders", marker);
      var available := orderProcessing;
      if available.Some? && !available.value {
        r := SendVoucherWithEduFallback(marker, !present, Plain);
        return;
      }
      r := SendVoucherWithEduFallback(marker, !present, Native);
      if r.Success? && available.None? {
        orderProcessing := Some(true);
      } else if r.Rejected? && available.None? {
        orderProcessing := Some(false);
      }
    }

    method SyncRentalOrder(id: string) returns (r: Reply)
      modifies this
      ensures (View(), r) == AfterCall(tally, old(View()), SyncOrder(id))
    {
      hide Attempt, Marker;
      r := AttemptSyncRentalOrder(Marker(Order, id, false));
      if r.Rejected? && r.stuck {
        r := AttemptSyncRentalOrder(Marker(Order, id, true));
      }
    }

    method SyncInvoice(id: string) returns (r: Reply)
      modifies this
      ensures (View(), r) == AfterCall(tally, old(View()), Call.SyncInvoice(id))
    {
      hide Check, SendVoucher, Marker;
      var present := CheckExists("invoices", Marker(Invoice, id, false));
      r := SendVoucherWithEduFallback(Marker(Invoice, id, false), !present, InvoiceShape);
    }

    method SyncPayment(id: string) returns (r: Reply)
      modifies this
      ensures (View(), r) == AfterCall(tally, old(View()), Call.SyncPayment(id))
    {
      hide Check, SendVoucher, Marker;
      var present := CheckExists("payments", Marker(Payment, id, false));
      r := SendVoucherWithEduFallback(Marker(Payment, id, false), !present, ReceiptShape);
    }
  }

  // ---------- what one call may do ----------

  /** The one retry the client still has up its sleeve. */
  function Potential(c: Client): nat {
    if c.eduMode then 0 else 1
  }

  /** The flags move one way: edu mode is only switched on, and order processing is
      decided once. */
  predicate Learns(c: Client, c': Client) {
    && (c.eduMode ==> c'.eduMode)
    && (c.orderProcessing.Some? ==> c'.orderProcessing == c.orderProcessing)
    && c.sent <= c'.sent
  }

  /** From import n on: nothing is sent outside edu mode once it is on. */
  predicate EduKept(sent: seq<Import>, n: nat) {
    forall k :: n <= k < |sent| ==> sent[k].edu
  }

  lemma CheckLearns(t: Tally, c: Client, entity: string, id: string)
    ensures var c' := Check(t, c, entity, id).0;
            c' == c.(cache := c'.cache, asked := c'.asked)
    ensures forall k :: k in c.cache ==> k in Check(t, c, entity, id).0.cache && Check(t, c, entity, id).0.cache[k] == c.cache[k]
  {
  }

  lemma SendCosts(t: Tally, c: Client, marker: string, create: bool, shape: Shape)
    ensures var c' := SendVoucher(t, c, marker, create, shape).0;
            && Learns(c, c') && c'.orderProcessing == c.orderProcessing
            && |c'.sent| + Potential(c') <= |c.sent| + Potential(c) + 1
            && (c.eduMode ==> EduKept(c'.sent, |c.sent|))
            && forall k :: |c.sent| <= k < |c'.sent| ==> c'.sent[k].marker == marker && c'.sent[k].shape == shape
  {
  }

  lemma AttemptCosts(t: Tally, c: Client, marker: string)
    ensures var c' := Attempt(t, c, marker).0;
            && Learns(c, c')
            && |c'.sent| + Potential(c') <= |c.sent| + Potential(c) + 1
            && (c.eduMode ==> EduKept(c'.sent, |c.sent|))
            && (c.orderProcessing.Some? ==>
                  forall k :: |c.sent| <= k < |c'.sent| ==> c'.sent[k].shape == if c.orderProcessing.value then Native else Plain)
  {
    hide SendVoucher, Check;
    CheckLearns(t, c, "rental_orders", marker);
    var (c1, present) := Check(t, c, "rental_orders", marker);
    assert c1 == c.(cache := c1.cache, asked := c1.asked);
    if c.orderProcessing.Some? && !c.orderProcessing.value {
      SendCosts(t, c1, marker, !present, Plain);
    } else {
      SendCosts(t, c1, marker, !present, Native);
    }
  }

  function Allowance(call: Call): nat {
    if call.SyncOrder? then 2 else 1
  }

  /** One call sends at most its allowance plus the one edu retry, if still unspent; the
      flags only learn; and once learned they rule what is sent. */
  lemma CallCosts(t: Tally, c: Client, call: Call)
    ensures var c' := AfterCall(t, c, call).0;
            && Learns(c, c')
            && |c'.sent| + Potential(c') <= |c.sent| + Potential(c) + Allowance(call)
            && (c.eduMode ==> EduKept(c'.sent, |c.sent|))
            && (call.SyncOrder? && c.orderProcessing.Some? ==>
                  forall k :: |c.sent| <= k < |c'.sent| ==> c'.sent[k].shape == if c.orderProcessing.value then Native else Plain)
  {
    hide SendVoucher, Check, Attempt, Marker;
    match call
    case SyncOrder(id) =>
      AttemptCosts(t, c, Marker(Order, id, false));
      AttemptCosts(t, Attempt(t, c, Marker(Order, id, false)).0, Marker(Order, id, true));
    case SyncInvoice(id) =>
      CheckLearns(t, c, "invoices", Marker(Invoice, id, false));
      var (c1, present) := Check(t, c, "invoices", Marker(Invoice, id, false));
      SendCosts(t, c1, Marker(Invoice, id, false), !present, InvoiceShape);
    case SyncPayment(id) =>
      CheckLearns(t, c, "payments", Marker(Payment, id, false));
      var (c1, present) := Check(t, c, "payments", Marker(Payment, id, false));
      SendCosts(t, c1, Marker(Payment, id, false), !present, ReceiptShape);
  }

  // ---------- any number of calls ----------

  function AfterCalls(t: Tally, c: Client, calls: seq<Call>): Client
    decreases |calls|
  {
    if calls == [] then c else AfterCalls(t, AfterCall(t, c, calls[0]).0, calls[1..])
  }

  function Allowances(calls: seq<Call>): nat {
    if calls == [] then 0 else Allowance(calls[0]) + Allowances(calls[1..])
  }

  /** Over any calls and any replies: at most two imports an order call and one an
      invoice or payment call, plus one in all. Both flags only learn, and from then on
      every import obeys them. */
  lemma {:induction false} ImportsAreBounded(t: Tally, c: Client, calls: seq<Call>)
    ensures var c' := AfterCalls(t, c, calls);
            && |c'.sent| + Potential(c') <= |c.sent| + Potential(c) + Allowances(calls)
            && Learns(c, c') && (c.eduMode ==> EduKept(c'.sent, |c.sent|))
    decreases |calls|
  {
    if calls != [] {
      CallCosts(t, c, calls[0]);
      hide AfterCall;
      ImportsAreBounded(t, AfterCall(t, c, calls[0]).0, calls[1..]);
    }
  }

  /** n order calls: at most 2n + 1 imports. */
  lemma OrderImportsAreBounded(t: Tally, c: Client, ids: seq<string>)
    ensures |AfterCalls(t, c, OrderCalls(ids)).sent| - |c.sent| <= 2 * |ids| + 1
  {
    ImportsAreBounded(t, c, OrderCalls(ids));
    OrderAllowances(ids);
    hide AfterCalls;
  }

  function OrderCalls(ids: seq<string>): seq<Call> {
    seq(|ids|, i requires 0 <= i < |ids| => SyncOrder(ids[i]))
  }

  lemma {:induction false} OrderAllowances(ids: seq<string>)
    ensures Allowances(OrderCalls(ids)) == 2 * |ids|
    decreases |ids|
  {
    if ids != [] {
      assert OrderCalls(ids)[1..] == OrderCalls(ids[1..]);
      OrderAllowances(ids[1..]);
    }
  }

  /** A Tally that rejects everything, naming the date and leaving every identifier stuck. */
  ghost predicate RejectsAll(t: Tally) {
    forall k: nat :: t.imports(k) == Rejected(true, true)
  }

  /** The bound is reached: such a Tally is sent 2n + 1 imports by a fresh client. */
  lemma BoundIsReached(t: Tally, ids: seq<string>)
    requires RejectsAll(t) && ids != []
    ensures |AfterCalls(t, Client(false, None, map[], [], []), OrderCalls(ids)).sent| == 2 * |ids| + 1
  {
    hide Marker;
    var c := Client(false, None, map[], [], []);
    RejectedCall(t, c, ids[0]);
    assert OrderCalls(ids)[1..] == OrderCalls(ids[1..]);
    RejectedCalls(t, AfterCall(t, c, SyncOrder(ids[0])).0, ids[1..]);
    hide AfterCall;
  }

  lemma RejectedCall(t: Tally, c: Client, id: string)
    requires RejectsAll(t) && c.orderProcessing != Some(true)
    ensures var c' := AfterCall(t, c, SyncOrder(id)).0;
            |c'.sent| == |c.sent| + 2 + Potential(c) && c'.eduMode && c'.orderProcessing == Some(false)
  {
    hide Marker, Check, SendVoucher;
    RejectedAttempt(t, c, Marker(Order, id, false));
    RejectedAttempt(t, Attempt(t, c, Marker(Order, id, false)).0, Marker(Order, id, true));
    hide Attempt;
  }

  lemma RejectedAttempt(t: Tally, c: Client, marker: string)
    requires RejectsAll(t) && c.orderProcessing != Some(true)
    ensures var (c', r) := Attempt(t, c, marker);
            |c'.sent| == |c.sent| + 1 + Potential(c) && c'.eduMode && c'.orderProcessing == Some(false) && r == Rejected(true, true)
  {
    hide Check;
    CheckLearns(t, c, "rental_orders", marker);
  }

  lemma {:induction false} RejectedCalls(t: Tally, c: Client, ids: seq<string>)
    requires RejectsAll(t) && c.orderProcessing == Some(false) && c.eduMode
    ensures |AfterCalls(t, c, OrderCalls(ids)).sent| == |c.sent| + 2 * |ids|
    decreases |ids|
  {
    hide AfterCall, RejectsAll;
    if ids != [] {
      RejectedCall(t, c, ids[0]);
      assert OrderCalls(ids)[1..] == OrderCalls(ids[1..]);
      RejectedCalls(t, AfterCall(t, c, SyncOrder(ids[0])).0, ids[1..]);
    }
  }

  // ---------- the existence cache ----------

  /** Query k is the last one about the key. */
  predicate LastAbout(asked: seq<(string, string)>, key: (string, string), k: nat) {
    k < |asked| && asked[k] == key && forall m :: k < m < |asked| ==> asked[m] != key
  }

  predicate SaysAbsent(a: Answer) {
    a == Answered(false) || a.BadStatus?
  }

  /** Every cached answer is Tally's reply to the last query about its key. */
  ghost predicate Remembers(t: Tally, c: Client) {
    forall key :: key in c.cache ==> exists k :: LastAbout(c.asked, key, k) && t.queries(k) == Answered(c.cache[key])
  }

  lemma CheckRemembers(t: Tally, c: Client, entity: string, id: string)
    requires Remembers(t, c)
    ensures Remembers(t, Check(t, c, entity, id).0)
  {
    var key, c' := CacheKey(entity, id), Check(t, c, entity, id).0;
    hide CacheKey;
    if id != "" && key !in c.cache {
      assert LastAbout(c'.asked, key, |c.asked|);
      forall other | other in c'.cache && other != key
        ensures exists k :: LastAbout(c'.asked, other, k) && t.queries(k) == Answered(c'.cache[other])
      {
        var k :| LastAbout(c.asked, other, k) && t.queries(k) == Answered(c.cache[other]);
        assert LastAbout(c'.asked, other, k);
      }
    }
  }

  predicate SameMemory(c: Client, c': Client) {
    c'.cache == c.cache && c'.asked == c.asked
  }

  lemma StillRemembers(t: Tally, c: Client, c': Client)
    requires Remembers(t, c) && SameMemory(c, c')
    ensures Remembers(t, c')
  {
  }

  lemma SendLearnsNothing(t: Tally, c: Client, marker: string, create: bool, shape: Shape)
    ensures SameMemory(c, SendVoucher(t, c, marker, create, shape).0)
  {
  }

  lemma AttemptOnlyChecks(t: Tally, c: Client, marker: string)
    ensures SameMemory(Check(t, c, "rental_orders", marker).0, Attempt(t, c, marker).0)
  {
    hide Check, SendVoucher;
    var (c1, present) := Check(t, c, "rental_orders", marker);
    SendLearnsNothing(t, c1, marker, !present, Plain);
    SendLearnsNothing(t, c1, marker, !present, Native);
  }

  lemma AttemptRemembers(t: Tally, c: Client, marker: string)
    requires Remembers(t, c)
    ensures Remembers(t, Attempt(t, c, marker).0)
  {
    hide Check, Attempt, Remembers;
    CheckRemembers(t, c, "rental_orders", marker);
    AttemptOnlyChecks(t, c, marker);
    StillRemembers(t, Check(t, c, "rental_orders", marker).0, Attempt(t, c, marker).0);
  }

  lemma SendRemembers(t: Tally, c: Client, marker: string, create: bool, shape: Shape)
    requires Remembers(t, c)
    ensures Remembers(t, SendVoucher(t, c, marker, create, shape).0)
  {
    hide SendVoucher;
    SendLearnsNothing(t, c, marker, create, shape);
    StillRemembers(t, c, SendVoucher(t, c, marker, create, shape).0);
  }

  lemma CallRemembers(t: Tally, c: Client, call: Call)
    requires Remembers(t, c)
    ensures Remembers(t, AfterCall(t, c, call).0)
  {
    hide Check, SendVoucher, Attempt, Marker, Remembers;
    match call
    case SyncOrder(id) =>
      AttemptRemembers(t, c, Marker(Order, id, false));
      AttemptRemembers(t, Attempt(t, c, Marker(Order, id, false)).0, Marker(Order, id, true));
    case SyncInvoice(id) =>
      CheckRemembers(t, c, "invoices", Marker(Invoice, id, false));
      var (c1, present) := Check(t, c, "invoices", Marker(Invoice, id, false));
      SendRemembers(t, c1, Marker(Invoice, id, false), !present, InvoiceShape);
    case SyncPayment(id) =>
      CheckRemembers(t, c, "payments", Marker(Payment, id, false));
      var (c1, present) := Check(t, c, "payments", Marker(Payment, id, false));
      SendRemembers(t, c1, Marker(Payment, id, false), !present, ReceiptShape);
  }

  lemma {:induction false} CallsRemember(t: Tally, c: Client, calls: seq<Call>)
    requires Remembers(t, c)
    ensures Remembers(t, AfterCalls(t, c, calls))
    decreases |calls|
  {
    hide AfterCall, Remembers;
    if calls != [] {
      CallRemembers(t, c, calls[0]);
      CallsRemember(t, AfterCall(t, c, calls[0]).0, calls[1..]);
    }
  }

  /** After any calls of a fresh client, check_exists says "absent" exactly when Tally's
      reply to the last query about that record, this one's or an earlier one, was
      "absent" or no 200. An exception never counts as absence. */
  lemma AbsenceIsLastReply(t: Tally, edu: bool, calls: seq<Call>, entity: string, id: string)
    ensures var (c, present) := Check(t, AfterCalls(t, Client(edu, None, map[], [], []), calls), entity, id);
            !present <==> id != "" && exists k :: LastAbout(c.asked, CacheKey(entity, id), k) && SaysAbsent(t.queries(k))
  {
    var c0 := Client(edu, None, map[], [], []);
    CallsRemember(t, c0, calls);
    hide AfterCalls;
    AbsentIff(t, AfterCalls(t, c0, calls), entity, id);
  }

  lemma AbsentIff(t: Tally, c: Client, entity: string, id: string)
    requires Remembers(t, c)
    ensures var (c', present) := Check(t, c, entity, id);
            !present <==> id != "" && exists k :: LastAbout(c'.asked, CacheKey(entity, id), k) && SaysAbsent(t.queries(k))
  {
    var key, c' := CacheKey(entity, id), Check(t, c, entity, id).0;
    hide CacheKey;
    if id != "" {
      if key in c.cache {
        var k :| LastAbout(c.asked, key, k) && t.queries(k) == Answered(c.cache[key]);
        assert LastAbout(c'.asked, key, k);
      } else {
        assert LastAbout(c'.asked, key, |c.asked|);
      }
    }
  }

  // ---------- Create or Alter ----------

  /** The record an import is about, as queries name it. */
  function RecordOf(marker: string, shape: Shape): (string, string) {
    CacheKey(match shape
             case InvoiceShape => "invoices"
             case ReceiptShape => "payments"
             case _ => "rental_orders", marker)
  }

  /** Tally's reply to the last of these queries about the record said it was not there. */
  ghost predicate ToldAbsent(t: Tally, asked: seq<(string, string)>, key: (string, string)) {
    exists q :: LastAbout(asked, key, q) && SaysAbsent(t.queries(q))
  }

  /** Create exactly for what was last said to be absent. */
  ghost predicate ActsAsTold(t: Tally, c: Client, i: Import) {
    i.queried <= |c.asked| && (i.create <==> ToldAbsent(t, c.asked[..i.queried], RecordOf(i.marker, i.shape)))
  }

  /** An import in edu mode straight after one outside it is that import again, which was
      rejected for its date. */
  predicate EduRepeats(t: Tally, sent: seq<Import>) {
    forall k :: 0 < k < |sent| && !sent[k - 1].edu && sent[k].edu ==>
      sent[k] == sent[k - 1].(edu := true) && t.imports(k - 1).Rejected? && t.imports(k - 1).dateMissing
  }

  /** What the client learned about the native shape, Tally said of a native import. */
  predicate LearnedIt(t: Tally, c: Client) {
    && (c.orderProcessing == Some(true) ==> exists k :: 0 <= k < |c.sent| && c.sent[k].shape == Native && t.imports(k).Success?)
    && (c.orderProcessing == Some(false) ==> exists k :: 0 <= k < |c.sent| && c.sent[k].shape == Native && t.imports(k).Rejected?)
  }

  ghost predicate AllAsTold(t: Tally, c: Client) {
    forall k :: 0 <= k < |c.sent| ==> ActsAsTold(t, c, c.sent[k])
  }

  predicate EduSound(t: Tally, c: Client) {
    EduRepeats(t, c.sent) && (c.sent != [] ==> (c.sent[|c.sent| - 1].edu <==> c.eduMode))
  }

  ghost predicate Faithful(t: Tally, c: Client) {
    Remembers(t, c) && EduSound(t, c) && AllAsTold(t, c)
  }

  lemma AskingChangesNothing(t: Tally, c: Client, c': Client)
    requires AllAsTold(t, c) && c'.sent == c.sent && c.asked <= c'.asked
    ensures AllAsTold(t, c')
  {
    hide ToldAbsent, RecordOf;
    forall k | 0 <= k < |c.sent| ensures ActsAsTold(t, c', c'.sent[k]) {
      assert ActsAsTold(t, c, c.sent[k]);
      assert c'.asked[..c.sent[k].queried] == c.asked[..c.sent[k].queried];
    }
  }

  lemma FaithfulCheck(t: Tally, c: Client, entity: string, id: string)
    requires Faithful(t, c) && id != ""
    ensures var (c', present) := Check(t, c, entity, id);
            Faithful(t, c') && (!present <==> ToldAbsent(t, c'.asked, CacheKey(entity, id)))
  {
    hide Check, Remembers, ToldAbsent, CacheKey, AllAsTold, EduSound;
    CheckRemembers(t, c, entity, id);
    CheckLearns(t, c, entity, id);
    QueriesOnlyGrow(t, c, entity, id);
    var c' := Check(t, c, entity, id).0;
    AskingChangesNothing(t, c, c');
    EduIgnoresAsking(t, c, c');
    PresentIffTold(t, c, entity, id);
  }

  lemma EduIgnoresAsking(t: Tally, c: Client, c': Client)
    requires EduSound(t, c) && c'.sent == c.sent && c'.eduMode == c.eduMode
    ensures EduSound(t, c')
  {
  }

  lemma PresentIffTold(t: Tally, c: Client, entity: string, id: string)
    requires Remembers(t, c) && id != ""
    ensures var (c', present) := Check(t, c, entity, id); !present <==> ToldAbsent(t, c'.asked, CacheKey(entity, id))
  {
    hide Check, Remembers, CacheKey;
    AbsentIff(t, c, entity, id);
  }

  lemma QueriesOnlyGrow(t: Tally, c: Client, entity: string, id: string)
    ensures c.asked <= Check(t, c, entity, id).0.asked
  {
  }

  lemma FaithfulPost(t: Tally, c: Client, i: Import, edu: bool)
    requires Faithful(t, c) && i.queried == |c.asked| && i.edu == edu && (c.eduMode ==> edu)
    requires i.create <==> ToldAbsent(t, c.asked, RecordOf(i.marker, i.shape))
    requires c.sent != [] && !c.eduMode && edu ==>
               i == c.sent[|c.sent| - 1].(edu := true) && t.imports(|c.sent| - 1).Rejected? && t.imports(|c.sent| - 1).dateMissing
    ensures Faithful(t, SendXml(t, c.(eduMode := edu), i).0)
  {
    var c' := SendXml(t, c.(eduMode := edu), i).0;
    hide ToldAbsent, RecordOf, Remembers;
    StillRemembers(t, c, c');
    OneMoreAsTold(t, c, c', i);
    hide AllAsTold;
  }

  lemma OneMoreAsTold(t: Tally, c: Client, c': Client, i: Import)
    requires AllAsTold(t, c) && c'.asked == c.asked && c'.sent == c.sent + [i] && i.queried == |c.asked|
    requires i.create <==> ToldAbsent(t, c.asked, RecordOf(i.marker, i.shape))
    ensures AllAsTold(t, c')
  {
    hide ToldAbsent, RecordOf;
    assert c'.asked[..|c.asked|] == c.asked;
    forall k | 0 <= k < |c'.sent| ensures ActsAsTold(t, c', c'.sent[k]) {
      if k < |c.sent| {
        assert ActsAsTold(t, c, c.sent[k]);
      }
    }
  }

  lemma FaithfulSend(t: Tally, c: Client, marker: string, create: bool, shape: Shape)
    requires Faithful(t, c) && (create <==> ToldAbsent(t, c.asked, RecordOf(marker, shape)))
    ensures Faithful(t, SendVoucher(t, c, marker, create, shape).0)
  {
    hide Faithful, ToldAbsent, RecordOf;
    var i := Import(marker, create, shape, c.eduMode, |c.asked|);
    FaithfulPost(t, c, i, c.eduMode);
    assert c.(eduMode := c.eduMode) == c;
    var (c1, r1) := SendXml(t, c, i);
    if r1.Rejected? && r1.dateMissing && !c.eduMode {
      FaithfulPost(t, c1, i.(edu := true), true);
    }
  }

  lemma FlagIsNoMatter(t: Tally, c: Client, flag: Option<bool>)
    requires Faithful(t, c)
    ensures Faithful(t, c.(orderProcessing := flag))
  {
    var c' := c.(orderProcessing := flag);
    StillRemembers(t, c, c');
    AskingChangesNothing(t, c, c');
    EduIgnoresAsking(t, c, c');
    hide Remembers, AllAsTold, EduSound;
  }

  lemma FaithfulAttempt(t: Tally, c: Client, marker: string)
    requires Faithful(t, c) && marker != ""
    ensures Faithful(t, Attempt(t, c, marker).0)
  {
    OrderRecord(marker);
    hide Faithful, Check, SendVoucher, CacheKey, RecordOf, ToldAbsent;
    FaithfulCheck(t, c, "rental_orders", marker);
    var (c1, present) := Check(t, c, "rental_orders", marker);
    if c.orderProcessing.Some? && !c.orderProcessing.value {
      FaithfulSend(t, c1, marker, !present, Plain);
    } else {
      FaithfulSend(t, c1, marker, !present, Native);
      var (c2, r) := SendVoucher(t, c1, marker, !present, Native);
      FlagIsNoMatter(t, c2, Some(r.Success?));
    }
  }

  lemma OrderRecord(marker: string)
    ensures RecordOf(marker, Plain) == RecordOf(marker, Native) == CacheKey("rental_orders", marker)
  {
  }

  lemma MarkerIsNotBlank(kind: Kind, id: string, retry: bool)
    ensures Marker(kind, id, retry) != ""
  {
  }

  lemma FaithfulCall(t: Tally, c: Client, call: Call)
    requires Faithful(t, c)
    ensures Faithful(t, AfterCall(t, c, call).0)
  {
    hide Check, SendVoucher, Attempt, Marker, Faithful, CacheKey, ToldAbsent;
    match call
    case SyncOrder(id) =>
      MarkerIsNotBlank(Order, id, false);
      MarkerIsNotBlank(Order, id, true);
      FaithfulAttempt(t, c, Marker(Order, id, false));
      FaithfulAttempt(t, Attempt(t, c, Marker(Order, id, false)).0, Marker(Order, id, true));
    case SyncInvoice(id) =>
      MarkerIsNotBlank(Invoice, id, false);
      FaithfulCheck(t, c, "invoices", Marker(Invoice, id, false));
      var (c1, present) := Check(t, c, "invoices", Marker(Invoice, id, false));
      FaithfulSend(t, c1, Marker(Invoice, id, false), !present, InvoiceShape);
    case SyncPayment(id) =>
      MarkerIsNotBlank(Payment, id, false);
      FaithfulCheck(t, c, "payments", Marker(Payment, id, false));
      var (c1, present) := Check(t, c, "payments", Marker(Payment, id, false));
      FaithfulSend(t, c1, Marker(Payment, id, false), !present, ReceiptShape);
  }

  lemma {:induction false} FaithfulCalls(t: Tally, c: Client, calls: seq<Call>)
    requires Faithful(t, c)
    ensures Faithful(t, AfterCalls(t, c, calls))
    decreases |calls|
  {
    hide AfterCall, Faithful;
    if calls != [] {
      FaithfulCall(t, c, calls[0]);
      FaithfulCalls(t, AfterCall(t, c, calls[0]).0, calls[1..]);
    }
  }

  /** Over any calls of a new client, orders, invoices and payments mixed, an import is a
      Create exactly when Tally's reply to the last query about its record before it was
      "absent" or no 200, and an Alter otherwise. The edu retry repeats the import it
      follows, action and all, and follows only a rejected date. */
  lemma CreateIffToldAbsent(t: Tally, edu: bool, flag: Option<bool>, calls: seq<Call>, k: nat)
    requires k < |AfterCalls(t, Client(edu, flag, map[], [], []), calls).sent|
    ensures var c := AfterCalls(t, Client(edu, flag, map[], [], []), calls); var i := c.sent[k];
            && i.queried <= |c.asked|
            && (i.create <==> exists q :: LastAbout(c.asked[..i.queried], RecordOf(i.marker, i.shape), q) && SaysAbsent(t.queries(q)))
            && (k > 0 && !c.sent[k - 1].edu && i.edu ==>
                  i == c.sent[k - 1].(edu := true) && t.imports(k - 1).Rejected? && t.imports(k - 1).dateMissing)
  {
    var c0 := Client(edu, flag, map[], [], []);
    FaithfulCalls(t, c0, calls);
    hide AfterCalls, RecordOf, Remembers;
    assert ActsAsTold(t, AfterCalls(t, c0, calls), AfterCalls(t, c0, calls).sent[k]);
  }

  lemma SendEnds(t: Tally, c: Client, marker: string, create: bool, shape: Shape)
    ensures var (c', r) := SendVoucher(t, c, marker, create, shape);
            && c.sent < c'.sent && c'.sent[|c'.sent| - 1].shape == shape && t.imports(|c'.sent| - 1) == r
            && c'.orderProcessing == c.orderProcessing
  {
  }

  lemma LearnedMore(t: Tally, c: Client, c': Client)
    requires LearnedIt(t, c) && c.sent <= c'.sent && c'.orderProcessing == c.orderProcessing
    ensures LearnedIt(t, c')
  {
    if c.orderProcessing.Some? {
      var k :| 0 <= k < |c.sent| && c.sent[k].shape == Native
               && (if c.orderProcessing.value then t.imports(k).Success? else t.imports(k).Rejected?);
      assert c'.sent[k] == c.sent[k];
    }
  }

  lemma LearnedAttempt(t: Tally, c: Client, marker: string)
    requires LearnedIt(t, c)
    ensures LearnedIt(t, Attempt(t, c, marker).0)
  {
    hide Check, SendVoucher;
    CheckLearns(t, c, "rental_orders", marker);
    var (c1, present) := Check(t, c, "rental_orders", marker);
    SendEnds(t, c1, marker, !present, Plain);
    SendEnds(t, c1, marker, !present, Native);
    var (c2, r) := SendVoucher(t, c1, marker, !present, Native);
    LearnedMore(t, c, c2);
    LearnedMore(t, c, SendVoucher(t, c1, marker, !present, Plain).0);
    assert c2.sent[|c2.sent| - 1].shape == Native && t.imports(|c2.sent| - 1) == r;
  }

  lemma LearnedCall(t: Tally, c: Client, call: Call)
    requires LearnedIt(t, c)
    ensures LearnedIt(t, AfterCall(t, c, call).0)
  {
    hide Check, SendVoucher, Attempt, Marker, LearnedIt;
    match call
    case SyncOrder(id) =>
      LearnedAttempt(t, c, Marker(Order, id, false));
      LearnedAttempt(t, Attempt(t, c, Marker(Order, id, false)).0, Marker(Order, id, true));
    case SyncInvoice(id) =>
      CheckLearns(t, c, "invoices", Marker(Invoice, id, false));
      var (c1, present) := Check(t, c, "invoices", Marker(Invoice, id, false));
      SendEnds(t, c1, Marker(Invoice, id, false), !present, InvoiceShape);
      LearnedMore(t, c, AfterCall(t, c, call).0);
    case SyncPayment(id) =>
      CheckLearns(t, c, "payments", Marker(Payment, id, false));
      var (c1, present) := Check(t, c, "payments", Marker(Payment, id, false));
      SendEnds(t, c1, Marker(Payment, id, false), !present, ReceiptShape);
      LearnedMore(t, c, AfterCall(t, c, call).0);
  }

  /** Over any calls, a client that was told nothing believes in native orders only if
      Tally accepted one, and in their absence only if Tally rejected one. */
  lemma {:induction false} FlagIsLearned(t: Tally, c: Client, calls: seq<Call>)
    requires LearnedIt(t, c)
    ensures LearnedIt(t, AfterCalls(t, c, calls))
    decreases |calls|
  {
    hide AfterCall, LearnedIt;
    if calls != [] {
      LearnedCall(t, c, calls[0]);
      FlagIsLearned(t, AfterCall(t, c, calls[0]).0, calls[1..]);
    }
  }

  /** And a cached answer is never revised by later calls. */
  lemma {:induction false} CacheIsForever(t: Tally, c: Client, calls: seq<Call>, key: (string, string))
    requires key in c.cache
    ensures key in AfterCalls(t, c, calls).cache && AfterCalls(t, c, calls).cache[key] == c.cache[key]
    decreases |calls|
  {
    if calls != [] {
      CallKeepsCache(t, c, calls[0]);
      hide AfterCall;
      CacheIsForever(t, AfterCall(t, c, calls[0]).0, calls[1..], key);
    }
  }

  predicate KeepsCache(c: Client, c': Client) {
    forall k :: k in c.cache ==> k in c'.cache && c'.cache[k] == c.cache[k]
  }

  lemma AttemptKeepsCache(t: Tally, c: Client, marker: string)
    ensures KeepsCache(c, Attempt(t, c, marker).0)
  {
    CheckLearns(t, c, "rental_orders", marker);
    hide Check;
  }

  lemma SendKeepsCache(t: Tally, c: Client, marker: string, create: bool, shape: Shape)
    ensures SendVoucher(t, c, marker, create, shape).0.cache == c.cache
  {
  }

  lemma CallKeepsCache(t: Tally, c: Client, call: Call)
    ensures KeepsCache(c, AfterCall(t, c, call).0)
  {
    hide Check, Marker, Attempt, SendVoucher;
    match call
    case SyncOrder(id) =>
      AttemptKeepsCache(t, c, Marker(Order, id, false));
      AttemptKeepsCache(t, Attempt(t, c, Marker(Order, id, false)).0, Marker(Order, id, true));
    case SyncInvoice(id) =>
      CheckLearns(t, c, "invoices", Marker(Invoice, id, false));
      var (c1, present) := Check(t, c, "invoices", Marker(Invoice, id, false));
      SendKeepsCache(t, c1, Marker(Invoice, id, false), !present, InvoiceShape);
    case SyncPayment(id) =>
      CheckLearns(t, c, "payments", Marker(Payment, id, false));
      var (c1, present) := Check(t, c, "payments", Marker(Payment, id, false));
      SendKeepsCache(t, c1, Marker(Payment, id, false), !present, ReceiptShape);
  }

  // ---------- whose marker is sent ----------

  /** From import n on, all carry this marker, in one of these shapes. */
  predicate SentFor(sent: seq<Import>, n: nat, m: nat, marker: string, shapes: set<Shape>) {
    n < m <= |sent| && forall k :: n <= k < m ==> sent[k].marker == marker && sent[k].shape in shapes
  }

  lemma AttemptSends(t: Tally, c: Client, marker: string)
    ensures var (c', r) := Attempt(t, c, marker);
            c.sent <= c'.sent && SentFor(c'.sent, |c.sent|, |c'.sent|, marker, {Native, Shape.Plain}) && t.imports(|c'.sent| - 1) == r
  {
    hide SendVoucher, Check;
    CheckLearns(t, c, "rental_orders", marker);
    var (c1, present) := Check(t, c, "rental_orders", marker);
    SendCosts(t, c1, marker, !present, Shape.Plain);
    SendCosts(t, c1, marker, !present, Native);
    SendEnds(t, c1, marker, !present, Shape.Plain);
    SendEnds(t, c1, marker, !present, Native);
  }

  /** The plain marker, and the fallback marker after that exactly when Tally rejected the
      last plain import as stuck; m imports had been sent by then. */
  predicate OrderSends(t: Tally, sent: seq<Import>, n: nat, m: nat, id: string) {
    && SentFor(sent, n, m, Marker(Order, id, false), {Native, Shape.Plain})
    && if t.imports(m - 1).Rejected? && t.imports(m - 1).stuck
       then SentFor(sent, m, |sent|, Marker(Order, id, true), {Native, Shape.Plain})
       else m == |sent|
  }

  /** An invoice or payment call sends its record's own marker in its own shape; an order
      call sends its plain marker, and the fallback one only when stuck. */
  lemma CallSendsItsMarkers(t: Tally, c: Client, call: Call)
    ensures var sent, n := AfterCall(t, c, call).0.sent, |c.sent|;
            && (call.SyncInvoice? ==> SentFor(sent, n, |sent|, Marker(Invoice, call.id, false), {InvoiceShape}))
            && (call.SyncPayment? ==> SentFor(sent, n, |sent|, Marker(Payment, call.id, false), {ReceiptShape}))
            && (call.SyncOrder? ==> exists m :: OrderSends(t, sent, n, m, call.id))
  {
    hide Check, SendVoucher, Attempt, Marker;
    match call
    case SyncOrder(id) =>
      AttemptSends(t, c, Marker(Order, id, false));
      var (c1, r) := Attempt(t, c, Marker(Order, id, false));
      AttemptSends(t, c1, Marker(Order, id, true));
      assert OrderSends(t, AfterCall(t, c, call).0.sent, |c.sent|, |c1.sent|, id);
    case SyncInvoice(id) =>
      CheckLearns(t, c, "invoices", Marker(Invoice, id, false));
      var (c1, present) := Check(t, c, "invoices", Marker(Invoice, id, false));
      SendCosts(t, c1, Marker(Invoice, id, false), !present, InvoiceShape);
      SendEnds(t, c1, Marker(Invoice, id, false), !present, InvoiceShape);
    case SyncPayment(id) =>
      CheckLearns(t, c, "payments", Marker(Payment, id, false));
      var (c1, present) := Check(t, c, "payments", Marker(Payment, id, false));
      SendCosts(t, c1, Marker(Payment, id, false), !present, ReceiptShape);
      SendEnds(t, c1, Marker(Payment, id, false), !present, ReceiptShape);
  }
}
