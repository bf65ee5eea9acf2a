/** What the cloud list decides (is_tally_voucher_duplicate of
    app/sync/tally_to_rentasst.py), on the characters of the listed rentouts. */
module ProtocolCloud {
  import opened Text
  import opened Wrappers
  import opened Markers
  import opened MappingTable
  import opened Protocol
  import opened ProtocolLocks
  import opened ProtocolTally
  import opened ProtocolRentouts

  /** The last characters of the notes are a hash sign and the number. */
  predicate NotesNameNumber(notes: string, n: string) {
    |n| < |notes| && notes[|notes| - |n| - 1] == '#' && notes[|notes| - |n|..] == n
  }

  predicate HasSlice(notes: string, part: string) {
    exists i, j :: 0 <= i <= j <= |notes| && notes[i..j] == part
  }

  /** The rentout's own text names the voucher. */
  predicate Names(r: Rentout, number: string, guid: string) {
    || Strip(r.number) == Strip(number)
    || Strip(r.number) == "ORD-" + Strip(number)
    || NotesNameNumber(Strip(r.notes), Strip(number))
    || (Strip(guid) != "" && HasSlice(Strip(r.notes), Strip(guid)))
  }

  lemma SliceIsContained(s: string, part: string)
    ensures Contains(s, part) <==> HasSlice(s, part)
  {
    if Contains(s, part) {
      var i :| 0 <= i <= |s| && part <= s[i..];
      assert s[i..i + |part|] == part;
    }
    if HasSlice(s, part) {
      var i, j :| 0 <= i <= j <= |s| && s[i..j] == part;
      assert s[i..][..j - i] == part;
    }
  }

  lemma HashedIsEnding(notes: string, n: string)
    ensures EndsWith(notes, "#" + n) <==> NotesNameNumber(notes, n)
  {
    if |n| < |notes| {
      var tail := notes[|notes| - |n| - 1..];
      assert tail == [tail[0]] + notes[|notes| - |n|..];
      assert tail == "#" + n <==> tail[0] == '#' && notes[|notes| - |n|..] == n;
    }
  }

  lemma MatchesIsNames(r: Rentout, number: string, guid: string)
    ensures Matches(r, number, guid) <==> Names(r, number, guid)
  {
    hide EndsWith, Contains, NotesNameNumber, HasSlice, Strip;
    HashedIsEnding(Strip(r.notes), Strip(number));
    SliceIsContained(Strip(r.notes), Strip(guid));
  }

  /** `t` is `s` with one row more: the mapping from the voucher to rentout `rid`. */
  predicate Adopted(s: State, t: State, guid: string, rid: string) {
    var own := ("rental_order", guid);
    && own in t.rows && t.rows.Keys == s.rows.Keys + {own}
    && (forall k :: k in s.rows && k != own ==> t.rows[k] == s.rows[k])
    && var r := t.rows[own];
       && r.source == guid && r.sourceSystem == "tally" && r.targetSystem == "rentasst" && r.status == "synced"
       && r.target == rid && r.company == r.targetCompany == "default"
  }

  /** With a complete list, the voucher is a duplicate if and only if the text of some
      living rentout names it and the mapping to that rentout is saved; otherwise it goes
      on to be pushed, and the table is as it was. */
  lemma ListDecidesIff(s: State, w: string, pick: Option<string>, stored: bool)
    requires CanListRentouts(s, w, Some(s.liveRentouts), pick)
    ensures var t, g, number := AfterListRentouts(s, w, pick, stored), GuidOf(s, w), VoucherOf(s, w).number;
            && ReverseAt(t, w)
            && (ReverseStageOf(t, w) == Left <==> stored && exists r :: r in s.liveRentouts && Names(s.rentouts[r], number, g))
            && (ReverseStageOf(t, w) == Left ==>
                  exists r :: r in s.liveRentouts && Names(s.rentouts[r], number, g) && Adopted(s, t, g, r))
            && (ReverseStageOf(t, w) != Left ==> ReverseStageOf(t, w) == Absent && t.rows == s.rows)
  {
    var g, number := GuidOf(s, w), VoucherOf(s, w).number;
    forall r | r in s.liveRentouts ensures Matches(s.rentouts[r], number, g) <==> Names(s.rentouts[r], number, g) {
      MatchesIsNames(s.rentouts[r], number, g);
    }
    hide Matches, Names, Strip;
    if pick.Some? && stored {
      assert Adopted(s, AfterListRentouts(s, w, pick, stored), g, pick.value);
    }
  }

  /** Trimming a text on the right that has a visible character trims what follows it. */
  lemma {:induction false} TrimmedTail(head: string, c: char, tail: string)
    requires !IsSpace(c)
    ensures StripRight(head + [c] + tail) == head + [c] + StripRight(tail)
    decreases |tail|
  {
    var s := head + [c] + tail;
    if tail == "" {
      assert s == head + [c];
    } else if IsSpace(tail[|tail| - 1]) {
      assert s[..|s| - 1] == head + [c] + tail[..|tail| - 1];
      TrimmedTail(head, c, tail[..|tail| - 1]);
    } else {
      assert s[|s| - 1] == tail[|tail| - 1];
    }
  }

  lemma {:induction false} LeadingSpaces(s: string) returns (lead: string)
    ensures s == lead + StripLeft(s) && forall c :: c in lead ==> IsSpace(c)
  {
    if s != "" && IsSpace(s[0]) {
      var rest := LeadingSpaces(s[1..]);
      lead := [s[0]] + rest;
      assert s == [s[0]] + s[1..];
    } else {
      lead := "";
      assert s == "" + s;
    }
  }

  lemma {:induction false} BlankStripsRight(s: string)
    requires forall c :: c in s ==> IsSpace(c)
    ensures StripRight(s) == ""
  {
    if s != "" {
      assert s[|s| - 1] in s;
      BlankStripsRight(s[..|s| - 1]);
    }
  }

  /** Only the leading spaces tell the right-trimmed number from the trimmed one. */
  lemma TrimmedNumber(number: string) returns (lead: string)
    ensures StripRight(number) == lead + Strip(number) && forall c :: c in lead ==> IsSpace(c)
    ensures lead != "" <==> number != "" && IsSpace(number[0]) && Strip(number) != ""
  {
    var rest := StripLeft(number);
    var spaces := LeadingSpaces(number);
    StripLeftStarts(number);
    if rest == "" {
      BlankStripsRight(number);
      lead := "";
    } else {
      assert rest == "" + [rest[0]] + rest[1..] && number == spaces + [rest[0]] + rest[1..];
      TrimmedTail("", rest[0], rest[1..]);
      TrimmedTail(spaces, rest[0], rest[1..]);
      lead := spaces;
      assert lead + ([rest[0]] + StripRight(rest[1..])) == lead + [rest[0]] + StripRight(rest[1..]);
    }
  }

  lemma NotesTrimmed(number: string)
    ensures NotesNameNumber(Strip(IMPORTED_ORDER + number), Strip(number))
            <==> !(number != "" && IsSpace(number[0]) && Strip(number) != "")
  {
    var head := "Imported from Tally Sales Order ";
    var notes := IMPORTED_ORDER + number;
    var lead := TrimmedNumber(number);
    assert notes == head + ['#'] + number && !IsSpace(notes[0]);
    TrimmedTail(head, '#', number);
    TailOfNotes(head, lead, Strip(number));
  }

  lemma TailOfNotes(head: string, lead: string, n: string)
    requires forall c :: c in lead ==> IsSpace(c)
    ensures NotesNameNumber(head + ['#'] + (lead + n), n) <==> lead == ""
  {
    var notes := head + ['#'] + (lead + n);
    assert notes[|notes| - |n|..] == n;
    if lead == "" {
      assert notes[|notes| - |n| - 1] == '#';
    } else {
      assert notes[|notes| - |n| - 1] == lead[|lead| - 1] && lead[|lead| - 1] in lead;
    }
  }

  /** The notes reverse sync posts make the voucher a duplicate on their own, whatever the
      rentout is numbered, unless the voucher's number starts with a space. */
  lemma PostedNotesSuffice(guid: string, v: Voucher, r: Rentout)
    requires r.notes == RentoutFrom(guid, v).notes && (v.number != "" ==> !IsSpace(v.number[0]))
    ensures NotesNameNumber(Strip(r.notes), Strip(v.number)) && Names(r, v.number, guid)
  {
    NotesTrimmed(v.number);
  }

  /** With a leading space they do not, unless the number is nothing but spaces. */
  lemma PostedNotesFailIff(number: string)
    ensures !NotesNameNumber(Strip(RentoutFrom("", Voucher(number, "", None)).notes), Strip(number))
            <==> number != "" && IsSpace(number[0]) && Strip(number) != ""
  {
    NotesTrimmed(number);
  }

  // ---------- the mapping by number ----------

  predicate TallyNamed(t: Table, id: string) {
    exists k :: k in t && t[k].entity == "rental_order" && t[k].targetCompany == "default" && t[k].targetSystem == "tally"
                && id in {t[k].target, t[k].external, t[k].guid}
  }

  /** A voucher is taken for one that forward sync wrote, by its number, exactly when the
      number is not blank and some mapping's Tally name is the number, alone or after RENT-
      or ORD-. */
  lemma NumberIsMappedIff(t: Table, n: string)
    ensures NumberLookup(t, n, None) <==>
            n == "" || !(TallyNamed(t, n) || TallyNamed(t, "RENT-" + n) || TallyNamed(t, "ORD-" + n))
  {
    HitsAreNamed(t, n);
    HitsAreNamed(t, "RENT-" + n);
    HitsAreNamed(t, "ORD-" + n);
    hide TargetHits, TallyNamed;
  }

  lemma HitsAreNamed(t: Table, id: string)
    ensures TargetHits(t, "default", "rental_order", "tally", id) != {} <==> TallyNamed(t, id)
  {
    if TallyNamed(t, id) {
      var k :| k in t && t[k].entity == "rental_order" && t[k].targetCompany == "default" && t[k].targetSystem == "tally"
               && id in {t[k].target, t[k].external, t[k].guid};
      assert k in TargetHits(t, "default", "rental_order", "tally", id);
    }
  }

  /** The rentout posted for a voucher bears its number, or, for want of one, ORD- and the
      first eight characters of its GUID, or all of a shorter one; never a blank number. */
  lemma PostedNumber(guid: string, v: Voucher, short: string)
    requires short <= guid && |short| == if |guid| < 8 then |guid| else 8
    ensures RentoutFrom(guid, v).number == (if v.number != "" then v.number else "ORD-" + short)
    ensures RentoutFrom(guid, v).number != ""
  {
    assert guid[..|short|] == short;
  }
}
