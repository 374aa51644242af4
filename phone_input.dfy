/**
 * The international phone field (src/components/ui/phone-input.jsx): how a
 * keystroke's value is cleaned, capped and reported. The phone-number
 * parser and the country table are parameters.
 */
module PhoneInput {
  import opened Js

  /**
   * What the parser makes of a value: it throws, finds no number, or finds
   * one with an optional country, a calling code and a national number
   * (`""` stands for a missing code or number).
   */
  datatype Parsed = Threw | NoNumber | Number(country: Option<string>, callingCode: string, national: string)

  /** A country as the country table describes it. */
  datatype CountryInfo = CountryInfo(alpha2: string, callingCodes: seq<string>)

  /** Maximum national digits by ISO country code. */
  const MaxNationalDigits: map<string, nat> := map[
    "IN" := 10, "US" := 10, "GB" := 10, "AE" := 9, "SA" := 9, "PK" := 10, "BD" := 10,
    "CN" := 11, "JP" := 10, "DE" := 11, "FR" := 9, "AU" := 9, "IT" := 10, "ES" := 9,
    "BR" := 11, "MX" := 10, "RU" := 10, "KR" := 11, "SG" := 8, "MY" := 10,
    "ID" := 12, "TH" := 9, "PH" := 10, "QA" := 8, "KW" := 8, "BH" := 8,
    "OM" := 8, "JO" := 9, "IQ" := 10, "EG" := 10, "NG" := 10, "KE" := 9,
    "LK" := 9, "NP" := 10, "TR" := 10, "ZA" := 9, "CA" := 10]

  /** `MAX_NATIONAL_DIGITS[code] || 15`. */
  function MaxDigits(code: string): (m: nat)
    ensures code in MaxNationalDigits ==> m == MaxNationalDigits[code]
    ensures code !in MaxNationalDigits ==> m == 15
    ensures 8 <= m <= 15
  {
    if code in MaxNationalDigits then MaxNationalDigits[code] else 15
  }

  /** `[\d+\s]`: the characters a value keeps. */
  predicate IsPhoneChar(c: char)
  {
    IsDigit(c) || c == '+' || IsSpace(c)
  }

  /** `value.replace(/[^\d+\s]/g, '')`. */
  function Sanitize(s: string): (r: string)
    ensures |r| <= |s| && forall i :: 0 <= i < |r| ==> IsPhoneChar(r[i])
  {
    FilterChars(s, IsPhoneChar)
  }

  /** A leading `00` becomes `+`; any other value without a leading `+` gets one. */
  function WithPlus(v: string): (r: string)
    ensures |r| >= 1 && r[0] == '+'
    ensures StartsWith(v, "+") ==> r == v
    ensures !StartsWith(v, "+") && StartsWith(v, "00") ==> r == "+" + v[2..]
    ensures !StartsWith(v, "+") && !StartsWith(v, "00") ==> r == "+" + v
  {
    if StartsWith(v, "+") then v
    else if StartsWith(v, "00") then "+" + v[2..]
    else "+" + v
  }

  /** The value before it is parsed. */
  function Normalize(raw: string): (r: string)
    ensures |r| >= 1 && r[0] == '+'
    ensures forall i :: 0 <= i < |r| ==> IsPhoneChar(r[i])
  {
    var s := Sanitize(raw);
    var r := WithPlus(s);
    assert forall i :: 1 <= i < |r| ==> r[i] in s;
    r
  }

  /** Normalising twice changes nothing more. */
  lemma NormalizeIdempotent(raw: string)
    ensures Normalize(Normalize(raw)) == Normalize(raw)
  {
    var n := Normalize(raw);
    assert Sanitize(n) == n;
    assert StartsWith(n, "+");
  }

  /** Cleaning keeps every digit, in order. */
  lemma {:induction false} SanitizeKeepsDigits(s: string)
    ensures DigitsOf(Sanitize(s)) == DigitsOf(s)
  {
    if s != [] {
      var head := if IsPhoneChar(s[0]) then [s[0]] else [];
      assert Sanitize(s) == head + Sanitize(s[1..]);
      DigitsOfSplit(head, Sanitize(s[1..]));
      SanitizeKeepsDigits(s[1..]);
      assert DigitsOf(head) == if IsDigit(s[0]) then [s[0]] else [];
    }
  }

  lemma PlusAddsNoDigit(rest: string)
    ensures DigitsOf("+" + rest) == DigitsOf(rest)
  {
    var plus := "+";
    assert DigitsOf(plus) == [];
    DigitsOfSplit(plus, rest);
  }

  lemma ZerosAreDigits(rest: string)
    ensures DigitsOf("00" + rest) == "00" + DigitsOf(rest)
  {
    var zeros := "00";
    assert DigitsOf(zeros) == zeros;
    DigitsOfSplit(zeros, rest);
  }

  /** The normalised value has the input's digits, less the two zeros a leading `00` turns into `+`. */
  lemma NormalizeDigits(raw: string)
    ensures var s := Sanitize(raw);
            if !StartsWith(s, "+") && StartsWith(s, "00") then "00" + DigitsOf(Normalize(raw)) == DigitsOf(raw)
            else DigitsOf(Normalize(raw)) == DigitsOf(raw)
  {
    var s := Sanitize(raw);
    SanitizeKeepsDigits(raw);
    if StartsWith(s, "+") {
    } else if StartsWith(s, "00") {
      assert s == "00" + s[2..];
      PlusAddsNoDigit(s[2..]);
      ZerosAreDigits(s[2..]);
    } else {
      PlusAddsNoDigit(s);
    }
  }

  /** What one change amounts to: dropped (no `onChange`), or a value passed on with the country found, if any. */
  datatype Change = Dropped | Emitted(value: string, country: Option<string>)

  /** The no-country and error paths: a value with more than 15 digits is dropped, any other is passed on as it is. */
  function Fallback(v: string): (c: Change)
    ensures c.Dropped? <==> |DigitsOf(v)| > 15
    ensures c.Emitted? ==> c == Emitted(v, None)
  {
    if |DigitsOf(v)| > 15 then Dropped else Emitted(v, None)
  }

  /** `'+' + callingCode + national.slice(0, max)`. */
  function Emit(callingCode: string, national: string, max: nat): (v: string)
    ensures |v| == 1 + |callingCode| + |Take(national, max)| && |v| <= 1 + |callingCode| + max
    ensures v[0] == '+' && v[1..1 + |callingCode|] == callingCode && v[1 + |callingCode|..] == Take(national, max)
  {
    "+" + callingCode + Take(national, max)
  }

  /** The country path, once the parser has found a country in `v`. */
  function CountryChange(v: string, p: Parsed, parse: string -> Parsed): (c: Change)
    requires |v| >= 1 && v[0] == '+' && p.Number? && p.country.Some?
    ensures c.Emitted? && c.country.Some? ==>
              c.country == p.country && exists cc, n :: c.value == Emit(cc, n, MaxDigits(p.country.value))
    ensures c.Emitted? && c.country.None? ==> |c.value| >= 1 && c.value[0] == '+' && |DigitsOf(c.value)| <= 15
  {
    var code := p.country.value;
    var max := MaxDigits(code);
    var v2 := if |p.national| > max then "+" + p.callingCode + p.national[..max] else v;
    var again := parse(v2);
    if again.Threw? then Fallback(v2)
    else
      var fin := if again.Number? then again else p;
      Emitted(Emit(if fin.callingCode != "" then fin.callingCode else p.callingCode,
                   if fin.national != "" then fin.national else p.national, max),
              Some(code))
  }

  /** `handlePhoneChange` as a value: the parser's country decides the path. */
  function PhoneChange(raw: string, parse: string -> Parsed): (c: Change)
    ensures var p := parse(Normalize(raw));
            !(p.Number? && p.country.Some?) ==> c == Fallback(Normalize(raw))
    ensures c.Emitted? && c.country.Some? ==>
              c.country == parse(Normalize(raw)).country &&
              exists cc, n :: c.value == Emit(cc, n, MaxDigits(c.country.value))
    ensures c.Emitted? && c.country.None? ==> |c.value| >= 1 && c.value[0] == '+' && |DigitsOf(c.value)| <= 15
  {
    var v := Normalize(raw);
    var p := parse(v);
    if p.Number? && p.country.Some? then CountryChange(v, p, parse) else Fallback(v)
  }

  /** With a country found, the value is `+`, a calling code, and at most that country's maximum of national characters. */
  lemma NationalCapped(raw: string, parse: string -> Parsed) returns (callingCode: string)
    requires PhoneChange(raw, parse).Emitted? && PhoneChange(raw, parse).country.Some?
    ensures var c := PhoneChange(raw, parse);
            c.value[0] == '+' && 1 + |callingCode| <= |c.value| && c.value[1..1 + |callingCode|] == callingCode &&
            |c.value| - (1 + |callingCode|) <= MaxDigits(c.country.value)
  {
    var c := PhoneChange(raw, parse);
    var cc, n :| c.value == Emit(cc, n, MaxDigits(c.country.value));
    callingCode := cc;
  }

  /** Sixteen digits and no country: the keystroke is ignored. */
  lemma SixteenDigitsWithoutCountryDropped(raw: string, parse: string -> Parsed)
    requires parse(Normalize(raw)) == NoNumber && |DigitsOf(Normalize(raw))| == 16
    ensures PhoneChange(raw, parse) == Dropped
  {
  }

  class PhoneField {
    var countryData: Option<CountryInfo>
    var displayFlag: string
    /** The flag the zero-delay timer will show. */
    var pendingFlag: Option<string>

    constructor ()
      ensures countryData.None? && displayFlag == "" && pendingFlag.None?
    {
      countryData, displayFlag, pendingFlag := None, "", None;
    }

    /** The no-country and error paths. */
    method WithoutCountry(v: string) returns (emitted: Option<string>, reported: Option<Option<CountryInfo>>)
      modifies this
      ensures pendingFlag == old(pendingFlag)
      ensures Fallback(v).Dropped? ==>
                emitted.None? && reported.None? && countryData == old(countryData) && displayFlag == old(displayFlag)
      ensures Fallback(v).Emitted? ==>
                emitted == Some(v) && reported == Some(None) && countryData.None? && displayFlag == ""
    {
      var digits := DigitsOf(v);
      if |digits| > 15 {
        return None, None;
      }
      emitted := Some(v);
      displayFlag := "";
      countryData := None;
      reported := Some(None);
    }

    /** What a change does to the field, as the method below states it for each kind of change. */
    predicate Applied(c: Change, emitted: Option<string>, reported: Option<Option<CountryInfo>>,
                      lookup: string -> Option<CountryInfo>,
                      oldCountry: Option<CountryInfo>, oldFlag: string, oldPending: Option<string>)
      reads this
    {
      match c
      case Dropped =>
        emitted.None? && reported.None? && countryData == oldCountry && displayFlag == oldFlag && pendingFlag == oldPending
      case Emitted(v, None) =>
        emitted == Some(v) && reported == Some(None) && countryData.None? && displayFlag == "" && pendingFlag == oldPending
      case Emitted(v, Some(code)) =>
        emitted == Some(v) && reported == Some(lookup(code)) && countryData == lookup(code) &&
        displayFlag == "" && pendingFlag == Some(Lower(code))
    }

    /** The cleaning steps: foreign characters removed, then a `+` ensured. */
    static method NormalizeInput(raw: string) returns (newValue: string)
      ensures newValue == Normalize(raw)
    {
      newValue := raw;
      newValue := Sanitize(newValue);
      if !StartsWith(newValue, "+") {
        if StartsWith(newValue, "00") {
          newValue := "+" + newValue[2..];
        } else {
          newValue := "+" + newValue;
        }
      }
    }

    /** The country path: the national number capped, the value re-parsed, the country recorded and reported. */
    method WithCountry(v: string, parsed: Parsed, parse: string -> Parsed, lookup: string -> Option<CountryInfo>)
      returns (emitted: Option<string>, reported: Option<Option<CountryInfo>>)
      requires |v| >= 1 && v[0] == '+' && parsed.Number? && parsed.country.Some?
      modifies this
      ensures Applied(CountryChange(v, parsed, parse), emitted, reported, lookup, old(countryData), old(displayFlag), old(pendingFlag))
    {
      var newValue := v;
      var countryCode := parsed.country.value;
      var maxDigits := MaxDigits(countryCode);
      var nationalNumber := parsed.national;
      if |nationalNumber| > maxDigits {
        newValue := "+" + parsed.callingCode + nationalNumber[..maxDigits];
      }
      var again := parse(newValue);
      if again.Threw? {
        emitted, reported := WithoutCountry(newValue);
        return;
      }
      var finalParsed := if again.Number? then again else parsed;
      displayFlag := "";
      pendingFlag := Some(Lower(countryCode));
      countryData := lookup(countryCode);
      reported := Some(countryData);
      var callingCode := if finalParsed.callingCode != "" then finalParsed.callingCode else parsed.callingCode;
      var national := if finalParsed.national != "" then finalParsed.national else nationalNumber;
      emitted := Some(Emit(callingCode, national, maxDigits));
    }

    /**
     * `handlePhoneChange`; `parse` is the phone-number parser and `lookup`
     * the country table. `emitted` is the value given to `onChange`, and
     * `reported` what is given to `onCountryChange` (`None` when it is not
     * called).
     */
    method HandlePhoneChange(raw: string, parse: string -> Parsed, lookup: string -> Option<CountryInfo>)
      returns (emitted: Option<string>, reported: Option<Option<CountryInfo>>)
      modifies this
      ensures Applied(PhoneChange(raw, parse), emitted, reported, lookup, old(countryData), old(displayFlag), old(pendingFlag))
    {
      var newValue := NormalizeInput(raw);
      var parsed := parse(newValue);
      if parsed.Number? && parsed.country.Some? {
        emitted, reported := WithCountry(newValue, parsed, parse, lookup);
      } else {
        emitted, reported := WithoutCountry(newValue);
      }
    }

    /** The zero-delay timer: the pending flag is shown. */
    method RunTimer()
      modifies this
      ensures old(pendingFlag).Some? ==> displayFlag == old(pendingFlag).value
      ensures old(pendingFlag).None? ==> displayFlag == old(displayFlag)
      ensures pendingFlag.None? && countryData == old(countryData)
    {
      if pendingFlag.Some? {
        displayFlag := pendingFlag.value;
      }
      pendingFlag := None;
    }
  }
}
