/**
 * The standalone WhatsApp chat viewer (src/components/WhatsAppChat.jsx):
 * how a number is displayed, which number is selected after loading, and
 * which messages are shown.
 */
module WhatsAppChat {
  import opened Js
  import Dict
  import ChatDashboard

  /** `number.startsWith("91") ? "+91 " + slices : number`. */
  function FormatPhoneNumber(number: string): (r: string)
    ensures !StartsWith(number, "91") ==> r == number
    ensures StartsWith(number, "91") ==>
              r == "+91 " + Slice(number, 2, 5) + " " + Slice(number, 5, 8) + " " + number[Min(8, |number|)..]
  {
    if StartsWith(number, "91") then
      "+91 " + Slice(number, 2, 5) + " " + Slice(number, 5, 8) + " " + number[Min(8, |number|)..]
    else number
  }

  function Min(a: nat, b: nat): nat { if a < b then a else b }

  /** Spaces and `+` removed. */
  function Compact(s: string): (r: string)
    ensures |r| <= |s|
  {
    if s == [] then [] else (if s[0] == ' ' || s[0] == '+' then [] else [s[0]]) + Compact(s[1..])
  }

  lemma {:induction false} CompactAppend(a: string, b: string)
    ensures Compact(a + b) == Compact(a) + Compact(b)
  {
    if a != [] {
      var head := if a[0] == ' ' || a[0] == '+' then [] else [a[0]];
      calc {
        Compact(a + b);
        { assert (a + b)[0] == a[0] && (a + b)[1..] == a[1..] + b; }
        head + Compact(a[1..] + b);
        { CompactAppend(a[1..], b); }
        head + (Compact(a[1..]) + Compact(b));
        { AppendAssoc(head, Compact(a[1..]), Compact(b)); }
        Compact(a) + Compact(b);
      }
    } else {
      assert a + b == b;
    }
  }

  lemma {:induction false} CompactPlain(s: string)
    requires ' ' !in s && '+' !in s
    ensures Compact(s) == s
  {
    if s != [] {
      CompactPlain(s[1..]);
    }
  }

  /** The display of a `91` number without its separators. */
  lemma CompactGrouped(a: string, b: string, c: string)
    requires ' ' !in a && '+' !in a && ' ' !in b && '+' !in b && ' ' !in c && '+' !in c
    ensures Compact("+91 " + a + " " + b + " " + c) == "91" + a + b + c
  {
    var prefix, space := "+91 ", " ";
    assert Compact(prefix) == "91";
    assert Compact(space) == [];
    CompactPlain(a);
    CompactPlain(b);
    CompactPlain(c);
    var x1 := prefix + a;
    var x2 := x1 + space;
    var x3 := x2 + b;
    var x4 := x3 + space;
    CompactAppend(prefix, a);
    CompactAppend(x1, space);
    CompactAppend(x2, b);
    CompactAppend(x3, space);
    CompactAppend(x4, c);
    assert Compact(x2) == "91" + a;
    assert Compact(x4) == "91" + a + b;
  }

  /** Formatting only inserts `+` and spaces: a number without them is recovered from its display. */
  lemma FormatKeepsDigits(number: string)
    requires ' ' !in number && '+' !in number
    ensures Compact(FormatPhoneNumber(number)) == number
  {
    if StartsWith(number, "91") {
      var hi5, hi8 := Min(5, |number|), Min(8, |number|);
      var a, b, c := number[2..hi5], number[hi5..hi8], number[hi8..];
      assert Slice(number, 2, 5) == a && Slice(number, 5, 8) == b;
      assert number == "91" + a + b + c by {
        assert number == number[..2] + number[2..hi5] + number[hi5..hi8] + number[hi8..];
      }
      CompactGrouped(a, b, c);
    } else {
      CompactPlain(number);
    }
  }

  /** A twelve-digit Indian number is grouped 3-3-4 after the country code. */
  lemma IndianNumberGrouped()
    ensures FormatPhoneNumber("919876543210") == "+91 987 654 3210"
  {
    var n := "919876543210";
    assert StartsWith(n, "91");
    assert Slice(n, 2, 5) == "987" && Slice(n, 5, 8) == "654" && n[8..] == "3210";
  }

  /** `numbers[0] || null`: the first number, unless there is none or it is the empty string. */
  function InitialSelection(convs: Dict.Dict<seq<ChatDashboard.ChatMessage>>): (sel: Option<string>)
    ensures sel.Some? <==> |convs.entries| > 0 && convs.entries[0].0 != ""
    ensures sel.Some? ==> sel.value == Dict.Keys(convs)[0]
  {
    var numbers := Dict.Keys(convs);
    if |numbers| > 0 && numbers[0] != "" then Some(numbers[0]) else None
  }

  /** `selectedNumber ? conversations[selectedNumber] : []`; `None` is the undefined of a missing number. */
  function CurrentMessages(convs: Dict.Dict<seq<ChatDashboard.ChatMessage>>, selected: Option<string>): (ms: Option<seq<ChatDashboard.ChatMessage>>)
    ensures selected.None? || selected.value == "" ==> ms == Some([])
    ensures selected.Some? && selected.value != "" ==> ms == Dict.Get(convs, selected.value)
  {
    if selected.None? || selected.value == "" then Some([]) else Dict.Get(convs, selected.value)
  }

  /** After loading, the messages shown are the first number's list, or none. */
  lemma LoadedShowsFirstList(convs: Dict.Dict<seq<ChatDashboard.ChatMessage>>)
    ensures |convs.entries| > 0 && convs.entries[0].0 != "" ==>
              CurrentMessages(convs, InitialSelection(convs)) == Some(convs.entries[0].1)
    ensures |convs.entries| == 0 ==> CurrentMessages(convs, InitialSelection(convs)) == Some([])
  {
  }
}
