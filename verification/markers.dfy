/** The RENTAL-{ORD,INV,PAY}-{id} markers: how forward sync writes them
    (app/sync/base.py, app/connectors/tally/client.py) and how reverse sync
    recognises them (app/sync/tally_to_rentasst.py). */
module Markers {
  import opened Text
  import opened Wrappers

  datatype Kind = Order | Invoice | Payment

  /** How reverse sync begins the notes of the rentouts it creates. */
  const IMPORTED := "Imported from Tally "

  predicate Numeric(s: string) {
    s != "" && forall c :: c in s ==> '0' <= c <= '9'
  }

  function Prefix(kind: Kind): (r: string)
    ensures |r| == 3
  {
    match kind
    case Order => "ORD"
    case Invoice => "INV"
    case Payment => "PAY"
  }

  /** The plain marker, and the one TallyClient falls back to once Tally has
      permanently rejected the plain one. */
  function Marker(kind: Kind, id: string, retry: bool): string {
    "RENTAL-" + Prefix(kind) + "-" + id + (if retry then "-R2" else "")
  }

  /** extract_identifier. */
  function ExtractIdentifier(entityType: string, id: string, name: string, businessName: string): string {
    var ent := Strip(Lower(entityType));
    if ent in ["customer", "customers"] then Strip(Or(name, businessName))
    else if ent in ["equipment", "product", "products"] then Strip(name)
    else if ent in ["rental_orders", "rental_order", "order", "orders"] then Marker(Order, id, false)
    else if ent in ["invoices", "invoice"] then Marker(Invoice, id, false)
    else if ent in ["payments", "payment"] then Marker(Payment, id, false)
    else ""
  }

  function KindOfPrefix(p: string): Option<Kind> {
    if p == "ORD" then Some(Order)
    else if p == "INV" then Some(Invoice)
    else if p == "PAY" then Some(Payment)
    else None
  }

  /** FORWARD_REMOTE_ID_PATTERN applied to the stripped narration. */
  function ParseMarker(narration: string): Option<(Kind, string)> {
    var m := Strip(narration);
    if |m| >= 11 && m[..7] == "RENTAL-" && m[10] == '-' && KindOfPrefix(m[7..10]).Some? && Numeric(m[11..])
    then Some((KindOfPrefix(m[7..10]).value, m[11..]))
    else None
  }

  predicate IsOwnMarker(narration: string) {
    ParseMarker(narration).Some?
  }

  /** The entity words of a kind that extract_identifier accepts. */
  function Words(kind: Kind): seq<string> {
    match kind
    case Order => ["rental_orders", "rental_order", "order", "orders"]
    case Invoice => ["invoices", "invoice"]
    case Payment => ["payments", "payment"]
  }

  /** The identifier the pipeline asks Tally about, and adopts as target id, is the
      plain marker the voucher was created under, for every spelling of its type. */
  lemma IdentifierIsMarker(kind: Kind, word: string, id: string, name: string, businessName: string)
    requires word in Words(kind)
    ensures ExtractIdentifier(word, id, name, businessName) == Marker(kind, id, false)
  {
    hide Marker, Strip, Lower, PlainWord;
    WordIsPlain(kind, word);
    PlainWordStays(word);
  }

  lemma WordIsPlain(kind: Kind, word: string)
    requires word in Words(kind)
    ensures PlainWord(word)
  {
  }

  /** Reverse sync recovers the kind and the id forward sync wrote exactly when the id
      is numeric, and takes any other tight marker for a foreign narration. */
  lemma MarkerRoundTrip(kind: Kind, id: string)
    ensures ParseMarker(Marker(kind, id, false)) == Some((kind, id)) <==> Numeric(id)
    ensures !Numeric(id) && Tight(Marker(kind, id, false)) ==> ParseMarker(Marker(kind, id, false)) == None
  {
    var m := Marker(kind, id, false);
    MarkerTail(kind, id, false);
    assert m[11..] == id;
    if Tight(m) {
      StripOfTight(m);
    } else {
      assert m[|m| - 1] == id[|id| - 1] && id[|id| - 1] in id;
    }
  }

  /** The fallback marker is invisible to reverse sync, whatever the id. */
  lemma RetryMarkerIsNotRecognised(kind: Kind, id: string)
    ensures ParseMarker(Marker(kind, id, true)) == None
  {
    var m := Marker(kind, id, true);
    StripOfTight(m);
    MarkerTail(kind, id, true);
    assert m[11..][|id|] == '-';
    assert '-' in m[11..];
  }

  /** Distinct records of numeric id never share a marker, plain or fallback. */
  lemma MarkersAreInjective(k: Kind, id: string, retry: bool, k': Kind, id': string, retry': bool)
    requires Numeric(id) && Numeric(id')
    requires Marker(k, id, retry) == Marker(k', id', retry')
    ensures k == k' && id == id' && retry == retry'
  {
    MarkerTail(k, id, retry);
    MarkerTail(k', id', retry');
    var tail, tail' := id + (if retry then "-R2" else ""), id' + (if retry' then "-R2" else "");
    assert tail == tail';
    assert Prefix(k)[0] == Prefix(k')[0];
    assert !retry ==> tail == id;
    assert !retry' ==> tail' == id';
    assert retry ==> '-' in tail;
    assert retry' ==> '-' in tail';
    assert retry ==> tail[|id|] == '-' && tail[..|tail| - 3] == id;
    assert retry' ==> tail'[|id'|] == '-' && tail'[..|tail'| - 3] == id';
  }

  lemma MarkerTail(kind: Kind, id: string, retry: bool)
    ensures var m := Marker(kind, id, retry);
            |m| >= 11 && m[..7] == "RENTAL-" && m[7..10] == Prefix(kind) && m[10] == '-'
            && m[11..] == id + (if retry then "-R2" else "")
  {
  }
}
