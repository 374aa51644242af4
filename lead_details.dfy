/**
 * The lead details modal (src/modules/admin/conversations/LeadDetailsModal.jsx):
 * the tolerant parse of the lead's JSON columns, the labels of the product
 * specifications, the phone as displayed, and which cards are shown.
 */
module LeadDetails {
  import opened Js

  // ---------------------------------------------------------------------
  // safeParse

  /** A JSON object's entries in key order, values as displayed. */
  datatype Details = Details(entries: seq<(string, string)>)

  /**
   * A JSON column as it arrives: a string (with the outcome of `JSON.parse`
   * on it: `None` when it throws or does not give an object), an object
   * already, or a falsy value.
   */
  datatype Column = Text(s: string, parsed: Option<Details>) | Object(d: Details) | Falsy

  /** `safeParse`: a string is parsed, `{}` when that fails; an object is kept; a falsy value is `{}`. */
  function SafeParse(c: Column): (d: Details)
    ensures c.Text? && c.parsed.Some? ==> d == c.parsed.value
    ensures c.Text? && c.parsed.None? ==> d.entries == []
    ensures c.Object? ==> d == c.d
    ensures c.Falsy? ==> d.entries == []
  {
    match c
    case Text(_, parsed) => if parsed.Some? then parsed.value else Details([])
    case Object(d) => d
    case Falsy => Details([])
  }

  // ---------------------------------------------------------------------
  // Labels

  /** The length of the run of digits at the start of `s`. */
  function DigitRun(s: string): (n: nat)
    ensures n <= |s| && AllDigits(s[..n])
    ensures n < |s| ==> !IsDigit(s[n])
  {
    if s != [] && IsDigit(s[0]) then 1 + DigitRun(s[1..]) else 0
  }

  /** Where a match of `screen_\d+_` starting at `i` ends (one past its last `_`), if one starts there. */
  function ScreenMatchAt(k: string, i: nat): (e: Option<nat>)
    requires i <= |k|
    ensures e.Some? ==> i + 9 <= e.value <= |k| && k[i..i + 7] == "screen_" && k[e.value - 1] == '_'
    ensures e.Some? ==> AllDigits(k[i + 7..e.value - 1]) && e.value - 1 > i + 7
  {
    if i + 7 <= |k| && k[i..i + 7] == "screen_" then
      var n := DigitRun(k[i + 7..]);
      if n > 0 && i + 7 + n < |k| && k[i + 7 + n] == '_' then
        assert k[i + 7..i + 7 + n] == k[i + 7..][..n];
        Some(i + 7 + n + 1)
      else None
    else None
  }

  /** The leftmost match of `screen_\d+_` at or after `i`, as start and end. */
  function FirstScreenMatch(k: string, i: nat): (m: Option<(nat, nat)>)
    requires i <= |k|
    ensures m.Some? ==> i <= m.value.0 <= |k| && ScreenMatchAt(k, m.value.0) == Some(m.value.1)
    ensures m.Some? ==> forall j :: i <= j < m.value.0 ==> ScreenMatchAt(k, j).None?
    ensures m.None? ==> forall j :: i <= j <= |k| ==> ScreenMatchAt(k, j).None?
    decreases |k| - i
  {
    if ScreenMatchAt(k, i).Some? then Some((i, ScreenMatchAt(k, i).value))
    else if i == |k| then None
    else FirstScreenMatch(k, i + 1)
  }

  /** `key.replace(/screen_\d+_/, '')`: only the first match is removed. */
  function DropScreenTag(k: string): (r: string)
    ensures FirstScreenMatch(k, 0).None? ==> r == k
    ensures var m := FirstScreenMatch(k, 0); m.Some? ==> r == k[..m.value.0] + k[m.value.1..]
    ensures |r| <= |k|
  {
    var m := FirstScreenMatch(k, 0);
    if m.Some? then k[..m.value.0] + k[m.value.1..] else k
  }

  /** The length of the run of digits that ends just before position `j` of `s`. */
  function DigitRunBefore(s: string, j: nat): (n: nat)
    requires j <= |s|
    ensures n <= j
    ensures forall i :: j - n <= i < j ==> IsDigit(s[i])
    ensures n < j ==> !IsDigit(s[j - n - 1])
  {
    if j > 0 && IsDigit(s[j - 1]) then 1 + DigitRunBefore(s, j - 1) else 0
  }

  /** The run is maximal: it covers every digit run that ends at `j`. */
  lemma {:induction false} DigitRunCovers(s: string, j: nat, m: nat)
    requires m <= j <= |s|
    requires forall i :: j - m <= i < j ==> IsDigit(s[i])
    ensures DigitRunBefore(s, j) >= m
  {
    if m > 0 {
      DigitRunCovers(s, j - 1, m - 1);
    }
  }

  /** `.replace(/_\d+$/, '')`: an underscore followed by digits up to the end is removed. */
  function DropTrailingNumber(k: string): (r: string)
    ensures |r| <= |k| && r == k[..|r|]
    ensures |r| < |k| ==> k[|r|] == '_' && |k| - |r| >= 2 && forall i :: |r| < i < |k| ==> IsDigit(k[i])
    ensures forall p :: 0 <= p < |k| - 1 && k[p] == '_' && (forall i :: p < i < |k| ==> IsDigit(k[i])) ==> r == k[..p]
  {
    var n := DigitRunBefore(k, |k|);
    forall p | 0 <= p < |k| - 1 && k[p] == '_' && (forall i :: p < i < |k| ==> IsDigit(k[i]))
      ensures n == |k| - p - 1
    {
      DigitRunCovers(k, |k|, |k| - p - 1);
      assert !IsDigit(k[p]);
    }
    if n > 0 && n < |k| && k[|k| - n - 1] == '_' then k[..|k| - n - 1] else k
  }

  /** `.replace(/_/g, ' ')`. */
  function UnderscoresToSpaces(s: string): (r: string)
    ensures |r| == |s|
    ensures forall i :: 0 <= i < |s| ==> r[i] == (if s[i] == '_' then ' ' else s[i])
  {
    seq(|s|, i requires 0 <= i < |s| => if s[i] == '_' then ' ' else s[i])
  }

  /** The label of a product-specification key. */
  function Label(key: string): (l: string)
    ensures '_' !in l
    ensures |l| <= |key|
    ensures var t := DropScreenTag(key);
      |l| <= |t| && forall i :: 0 <= i < |l| ==> l[i] == (if t[i] == '_' then ' ' else t[i])
    ensures var t := DropScreenTag(key);
      |l| < |t| ==> t[|l|] == '_' && |t| - |l| >= 2 && forall i :: |l| < i < |t| ==> IsDigit(t[i])
    ensures var t := DropScreenTag(key);
      forall p :: 0 <= p < |t| - 1 && t[p] == '_' && (forall i :: p < i < |t| ==> IsDigit(t[i])) ==> |l| == p
  {
    UnderscoresToSpaces(DropTrailingNumber(DropScreenTag(key)))
  }

  /** The `screen_<n>_` tag of the page's example key. */
  lemma ScreenTagExample()
    ensures DropScreenTag("screen_0_Make_0") == "Make_0"
  {
    var k := "screen_0_Make_0";
    assert ScreenMatchAt(k, 0) == Some(9) by {
      assert k[0..7] == "screen_";
      assert k[7..][0] == '0' && k[7..][1] == '_';
      assert DigitRun(k[7..]) == 1;
    }
    assert FirstScreenMatch(k, 0) == Some((0, 9));
    assert k[..0] + k[9..] == "Make_0";
  }

  /** The trailing number of the page's example key. */
  lemma TrailingNumberExample()
    ensures DropTrailingNumber("Make_0") == "Make"
  {
    var s := "Make_0";
    assert DigitRunBefore(s, 6) == 1 by {
      assert s[5] == '0' && s[4] == '_';
    }
    assert s[..4] == "Make";
  }

  /** The example the page gives: `screen_0_Make_0` reads `Make`. */
  lemma LabelExample()
    ensures Label("screen_0_Make_0") == "Make"
  {
    ScreenTagExample();
    TrailingNumberExample();
    SpacesOnlyForUnderscores("Make");
  }

  /** A string without underscores is left as it is. */
  lemma SpacesOnlyForUnderscores(s: string)
    requires '_' !in s
    ensures UnderscoresToSpaces(s) == s
  {
  }

  /** A key with no underscore and no `screen_` tag is its own label. */
  lemma PlainKeyIsItsLabel(key: string)
    requires '_' !in key
    ensures Label(key) == key
  {
    if FirstScreenMatch(key, 0).Some? {
      assert false;
    }
  }

  /** The product specifications shown: every entry but `flow_token`, as label and value, in order. */
  function SpecRows(d: Details): (rows: seq<(string, string)>)
    ensures |rows| <= |d.entries|
    ensures forall r :: r in rows ==> '_' !in r.0
    ensures forall i :: 0 <= i < |d.entries| && d.entries[i].0 != "flow_token" ==>
              (Label(d.entries[i].0), d.entries[i].1) in rows
    decreases |d.entries|
  {
    if d.entries == [] then []
    else
      var rest := SpecRows(Details(d.entries[1..]));
      var (k, v) := d.entries[0];
      assert forall i :: 1 <= i < |d.entries| ==> d.entries[i] == d.entries[1..][i - 1];
      (if k == "flow_token" then [] else [(Label(k), v)]) + rest
  }
  /** Nothing but the entries is shown: every row is the label and value of an entry other than `flow_token`. */
  lemma {:induction false} SpecRowsOnlyEntries(d: Details, r: (string, string))
    requires r in SpecRows(d)
    ensures exists i :: 0 <= i < |d.entries| && d.entries[i].0 != "flow_token" && r == (Label(d.entries[i].0), d.entries[i].1)
    decreases |d.entries|
  {
    var (k, v) := d.entries[0];
    if !(k != "flow_token" && r == (Label(k), v)) {
      var tail := Details(d.entries[1..]);
      assert r in SpecRows(tail);
      SpecRowsOnlyEntries(tail, r);
      var i :| 0 <= i < |tail.entries| && tail.entries[i].0 != "flow_token" && r == (Label(tail.entries[i].0), tail.entries[i].1);
      assert d.entries[i + 1] == tail.entries[i];
    }
  }

  /** The rows keep the order of the entries: two runs of entries give each run's rows in turn. */
  lemma {:induction false} SpecRowsAppend(a: seq<(string, string)>, b: seq<(string, string)>)
    ensures SpecRows(Details(a + b)) == SpecRows(Details(a)) + SpecRows(Details(b))
    decreases |a|
  {
    if a == [] {
      assert a + b == b;
    } else {
      var (k, v) := a[0];
      var h := if k == "flow_token" then [] else [(Label(k), v)];
      var ft, fb := SpecRows(Details(a[1..])), SpecRows(Details(b));
      calc {
        SpecRows(Details(a + b));
        { ConsAppend(a, b); }
        h + SpecRows(Details(a[1..] + b));
        { SpecRowsAppend(a[1..], b); }
        h + (ft + fb);
        { AppendAssoc(h, ft, fb); }
        (h + ft) + fb;
      }
    }
  }


  // ---------------------------------------------------------------------
  // Phone and cards

  /** `'+' + String(phone).replace(/^\+/, '')` for a truthy phone, else `''`. */
  function DisplayPhone(phone: Option<string>): (p: string)
    ensures phone.None? || phone.value == "" ==> p == ""
    ensures phone.Some? && phone.value != "" ==> p != "" && p[0] == '+'
    ensures phone.Some? && phone.value != "" && phone.value[0] != '+' ==> p == "+" + phone.value
    ensures phone.Some? && phone.value != "" && phone.value[0] == '+' ==> p == phone.value
  {
    if phone.None? || phone.value == "" then ""
    else "+" + (if phone.value[0] == '+' then phone.value[1..] else phone.value)
  }

  /** Displaying an already displayed phone changes nothing. */
  lemma DisplayPhoneIdempotent(phone: Option<string>)
    ensures DisplayPhone(Some(DisplayPhone(phone))) == DisplayPhone(phone)
  {
  }

  /** Only one `+` is removed before one is added, so a doubled `+` stays doubled. */
  lemma DoublePlusKept()
    ensures DisplayPhone(Some("++91")) == "++91"
  {
  }

  /** A lead as the modal reads it. */
  datatype LeadRecord = LeadRecord(
    name: Option<string>, email: Option<string>, phoneNumber: Option<string>, companyName: Option<string>,
    status: Option<string>, productInterest: Option<string>, productDetails: Column)

  /** A card is shown only for a truthy value (`InfoCard` returns null otherwise). */
  function Cards(l: LeadRecord): (cards: seq<(string, string)>)
    ensures forall c :: c in cards ==> c.1 != ""
    ensures ("Phone", DisplayPhone(l.phoneNumber)) in cards <==> l.phoneNumber.Some? && l.phoneNumber.value != ""
    ensures |cards| <= 4
  {
    var all := [("Email", l.email), ("Phone", Some(DisplayPhone(l.phoneNumber))),
                ("Company", l.companyName), ("Status", l.status)];
    KeepShown(all)
  }

  /** Each of the email, company and status cards is shown exactly when its value is present and non-empty. */
  lemma CardsShown(l: LeadRecord, v: string)
    ensures ("Email", v) in Cards(l) <==> l.email == Some(v) && v != ""
    ensures ("Company", v) in Cards(l) <==> l.companyName == Some(v) && v != ""
    ensures ("Status", v) in Cards(l) <==> l.status == Some(v) && v != ""
  {
    var all := [("Email", l.email), ("Phone", Some(DisplayPhone(l.phoneNumber))),
                ("Company", l.companyName), ("Status", l.status)];
    assert Cards(l) == KeepShown(all);
    assert forall c :: c in all <==> c == all[0] || c == all[1] || c == all[2] || c == all[3];
    KeepShownLabel(all, "Email", l.email, v);
    KeepShownLabel(all, "Company", l.companyName, v);
    KeepShownLabel(all, "Status", l.status, v);
  }

  /** A label carried by one card only is shown exactly with that card's present, non-empty value. */
  lemma KeepShownLabel(cards: seq<(string, Option<string>)>, name: string, value: Option<string>, v: string)
    requires (name, value) in cards
    requires forall c :: c in cards && c.0 == name ==> c.1 == value
    ensures (name, v) in KeepShown(cards) <==> value == Some(v) && v != ""
  {
  }

  function KeepShown(cards: seq<(string, Option<string>)>): (r: seq<(string, string)>)
    ensures |r| <= |cards|
    ensures forall c :: c in r <==> (c.0, Some(c.1)) in cards && c.1 != ""
  {
    if cards == [] then []
    else
      var rest := KeepShown(cards[1..]);
      assert forall x :: x in cards[1..] ==> x in cards;
      assert forall x :: x in cards ==> x == cards[0] || x in cards[1..];
      (if cards[0].1.Some? && cards[0].1.value != "" then [(cards[0].0, cards[0].1.value)] else []) + rest
  }

  /** Cards are kept in the order they are given: the filter distributes over concatenation. */
  lemma {:induction false} KeepShownAppend(a: seq<(string, Option<string>)>, b: seq<(string, Option<string>)>)
    ensures KeepShown(a + b) == KeepShown(a) + KeepShown(b)
  {
    if a == [] {
      assert a + b == b;
    } else {
      var x, t := a[0], a[1..];
      var h, ft, fb := (if x.1.Some? && x.1.value != "" then [(x.0, x.1.value)] else []), KeepShown(t), KeepShown(b);
      calc {
        KeepShown(a + b);
        { KeepShownUnfold(a + b); ConsAppend(a, b); }
        h + KeepShown(t + b);
        { KeepShownAppend(t, b); }
        h + (ft + fb);
        { AppendAssoc(h, ft, fb); }
        (h + ft) + fb;
        { KeepShownUnfold(a); }
        KeepShown(a) + fb;
      }
    }
  }

  lemma KeepShownUnfold(a: seq<(string, Option<string>)>)
    requires a != []
    ensures KeepShown(a) == (if a[0].1.Some? && a[0].1.value != "" then [(a[0].0, a[0].1.value)] else []) + KeepShown(a[1..])
  {
  }

  /** What the modal shows. */
  datatype View = View(title: string, cards: seq<(string, string)>, productInterest: Option<string>,
                       specs: seq<(string, string)>)

  /** The modal: nothing for a missing lead. */
  function Render(lead: Option<LeadRecord>): (v: Option<View>)
    ensures v.Some? <==> lead.Some?
    ensures v.Some? ==> v.value.title != ""
    ensures v.Some? && v.value.productInterest.Some? ==> v.value.productInterest.value != ""
    ensures v.Some? && SafeParse(lead.value.productDetails).entries == [] ==> v.value.specs == []
  {
    if lead.None? then None
    else
      var l := lead.value;
      Some(View(
        if l.name.Some? && l.name.value != "" then l.name.value else "Unknown Candidate",
        Cards(l),
        if l.productInterest.Some? && l.productInterest.value != "" then l.productInterest else None,
        SpecRows(SafeParse(l.productDetails))))
  }
}
