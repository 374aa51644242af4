/**
 * The property panel of the selected field
 * (src/modules/forms/builder/FieldConfigPanel.jsx): finding the field, and
 * the new rule object, option list or id that each control sends to the
 * builder. The panel's "Required Field" switch writes the `required` key of
 * the rule object, which the label's asterisk reads, and never the
 * top-level `required` flag, which the renderer validates.
 */
module FieldConfig {
  import opened Js
  import opened FormModel
  import Dict
  import opened Visibility
  import opened FormBuilder
  import opened FormSelectors
  import opened FormFieldView
  import DynamicForm

  // ---------------------------------------------------------------------
  // Finding the selected field

  /**
   * The panel's lookup loop: the first screen whose fields contain the
   * selected id, and that field; nothing for no selection.
   */
  method LookupSelected(screens: seq<Screen>, selectedFieldId: Option<string>) returns (field: Option<Field>, screen: Option<Screen>)
    ensures selectedFieldId.None? ==> field.None?
    ensures selectedFieldId.Some? ==> field == FirstFieldWithId(screens, selectedFieldId.value)
    ensures field.None? <==> screen.None?
    ensures field.Some? ==> screen.value == screens[ScreenWithField(screens, selectedFieldId.value)] && field.value in screen.value.fields
  {
    field, screen := None, None;
    if selectedFieldId.None? {
      return;
    }
    var id := selectedFieldId.value;
    var s := 0;
    while s < |screens|
      invariant 0 <= s <= |screens|
      invariant forall k :: 0 <= k < s ==> !HasField(screens[k].fields, id)
    {
      var j := IndexOfField(screens[s].fields, id);
      if j < |screens[s].fields| {
        assert ScreenWithField(screens, id) == s;
        field, screen := Some(screens[s].fields[j]), Some(screens[s]);
        return;
      }
      s := s + 1;
    }
  }

  /** For a non-empty id the panel edits the same field the selection view returns. */
  lemma PanelAgreesWithSelector(screens: seq<Screen>, id: string)
    requires id != ""
    ensures FirstFieldWithId(screens, id) == SelectedField(screens, Some(id))
  {
    SelectedFieldIsFirstMatch(screens, id);
  }

  // ---------------------------------------------------------------------
  // Validation rules

  /** `value === '' || value === null || value === false`. */
  predicate ClearsRule(value: Value)
  {
    value == Str("") || value.Null? || value == Bool(false)
  }

  /** `handleValidationChange(key, value)`: spread the rules, set the key, delete it again for a clearing value. */
  function ValidationChange(rules: Dict.Dict<Value>, key: string, value: Value): (r: Dict.Dict<Value>)
  {
    var updated := Dict.Put(rules, key, value);
    if ClearsRule(value) then Dict.Remove(updated, key) else updated
  }

  /** The edited key is gone after a clearing value and holds the value otherwise; no other rule changes. */
  lemma ValidationChangeGet(rules: Dict.Dict<Value>, key: string, value: Value, k: string)
    ensures Dict.Get(ValidationChange(rules, key, value), k) ==
      if k != key then Dict.Get(rules, k) else if ClearsRule(value) then None else Some(value)
  {
    Dict.PutGet(rules, key, value, k);
    if ClearsRule(value) {
      Dict.RemoveGet(Dict.Put(rules, key, value), key, k);
    }
  }

  /** The "Required Field" switch: `handleValidationChange('required', checked)`. */
  function RequiredSwitch(f: Field, checked: bool): (g: Field)
    ensures g.id == f.id && g.required == f.required && g.validation == f.validation
  {
    ApplyPatch(f, SetRules(ValidationChange(f.validationRules, "required", Bool(checked))))
  }

  /** The asterisk follows the switch, and the switch never touches the flag the renderer checks. */
  lemma RequiredSwitchDrivesMarkerOnly(f: Field, checked: bool)
    ensures RequiredMarker(RequiredSwitch(f, checked)) == checked
    ensures RequiredSwitch(f, checked).required == f.required
  {
    ValidationChangeGet(f.validationRules, "required", Bool(checked), "required");
  }

  /**
   * A field marked required only through the switch shows the asterisk, yet
   * the renderer records no error for it when it is left unanswered.
   */
  lemma SwitchedOnFieldAcceptsEmptyAnswer(f: Field, r: Responses, fm: FieldMap, matches: (string, string) -> bool)
    requires KeyedById(fm) && !f.required && f.id !in r
    ensures RequiredMarker(RequiredSwitch(f, true))
    ensures DynamicForm.FieldError(RequiredSwitch(f, true), r, fm, matches).None?
  {
    RequiredSwitchDrivesMarkerOnly(f, true);
  }

  // ---------------------------------------------------------------------
  // Options

  /** `selectedField.options || []`. */
  function OptionList(options: Option<seq<FieldOption>>): seq<FieldOption>
  {
    if options.Some? then options.value else []
  }

  /** The option `addOption` appends as the `n`-th one. */
  function NumberedOption(n: nat): (o: FieldOption)
    ensures o.OptionPair?
    ensures o.caption == "Option " + NatToString(n) && o.value == "option_" + NatToString(n)
  {
    OptionPair("Option " + NatToString(n), "option_" + NatToString(n))
  }

  /** `addOption`: append `Option k` / `option_k`, with k one more than the current count. */
  function AddOption(options: Option<seq<FieldOption>>): (r: seq<FieldOption>)
    ensures |r| == |OptionList(options)| + 1
    ensures r[..|OptionList(options)|] == OptionList(options)
    ensures r[|OptionList(options)|] == NumberedOption(|OptionList(options)| + 1)
  {
    OptionList(options) + [NumberedOption(|OptionList(options)| + 1)]
  }

  /** Different numbers give different option values. */
  lemma NumberedOptionsDistinct(m: nat, n: nat)
    requires m != n
    ensures NumberedOption(m).value != NumberedOption(n).value
  {
    NatToStringRoundTrip(m);
    NatToStringRoundTrip(n);
    var p := "option_";
    assert NumberedOption(m).value[|p|..] == NatToString(m);
    assert NumberedOption(n).value[|p|..] == NatToString(n);
  }

  /** Options added one after another to an empty list have distinct values. */
  lemma AddTwiceDistinct()
    ensures var r := AddOption(Some(AddOption(None)));
      |r| == 2 && r[0].value != r[1].value
  {
    NumberedOptionsDistinct(1, 2);
  }

  /**
   * Numbering by count repeats a value after a removal: add two options,
   * remove the first, add again, and both options hold `option_2`.
   */
  lemma AddAfterRemoveRepeatsValue()
    ensures var r := AddOption(Some(RemoveOption(AddOption(Some(AddOption(None))), 0)));
      |r| == 2 && r[0] == r[1] && r[0].OptionPair? && r[0].value == "option_2"
  {
  }

  /** `updateOption(index, key, val)`: the key is `label` or `value`. */
  datatype OptionEdit = SetOptionLabel(text: string) | SetOptionValue(text: string)

  /** `{...option, [key]: val}`; a bare-string option gets the other component as `""`. */
  function EditOption(o: FieldOption, e: OptionEdit): (p: FieldOption)
    ensures p.OptionPair?
    ensures e.SetOptionLabel? ==> p.caption == e.text && p.value == (if o.OptionPair? then o.value else "")
    ensures e.SetOptionValue? ==> p.value == e.text && p.caption == (if o.OptionPair? then o.caption else "")
  {
    var (c, v) := if o.OptionPair? then (o.caption, o.value) else ("", "");
    match e
    case SetOptionLabel(t) => OptionPair(t, v)
    case SetOptionValue(t) => OptionPair(c, t)
  }

  /** `updateOption`: only the option at `index` changes. */
  function UpdateOption(options: seq<FieldOption>, index: nat, e: OptionEdit): (r: seq<FieldOption>)
    requires index < |options|
    ensures |r| == |options|
    ensures r[index] == EditOption(options[index], e)
    ensures forall j :: 0 <= j < |options| && j != index ==> r[j] == options[j]
  {
    options[index := EditOption(options[index], e)]
  }

  /** `removeOption(index)`: `splice(index, 1)` on a copy; a negative index counts from the end. */
  function RemoveOption(options: seq<FieldOption>, index: int): (r: seq<FieldOption>)
    ensures 0 <= index < |options| ==> r == options[..index] + options[index + 1..]
    ensures index >= |options| ==> r == options
    ensures -|options| <= index < 0 ==>
              r == options[..|options| + index] + options[|options| + index + 1..]
    ensures index < -|options| && options != [] ==> r == options[1..]
  {
    SpliceOne(options, index)
  }

  /** Removing the option just added restores the list. */
  lemma RemoveUndoesAddOption(options: Option<seq<FieldOption>>)
    ensures RemoveOption(AddOption(options), |OptionList(options)|) == OptionList(options)
  {
  }

  // ---------------------------------------------------------------------
  // The slug input

  /** `[a-zA-Z0-9_-]`. */
  predicate IsSlugChar(c: char)
  {
    IsAsciiAlnum(c) || c == '_' || c == '-'
  }

  /** `text.replace(/[^a-zA-Z0-9_-]/g, '')`. */
  function SanitizeSlug(text: string): (id: string)
    ensures forall i :: 0 <= i < |id| ==> IsSlugChar(id[i])
    ensures |id| <= |text|
  {
    FilterChars(text, IsSlugChar)
  }

  /** Sanitising twice is sanitising once, and a clean slug passes untouched. */
  lemma SanitizeSlugIdempotent(text: string)
    ensures SanitizeSlug(SanitizeSlug(text)) == SanitizeSlug(text)
    ensures (forall i :: 0 <= i < |text| ==> IsSlugChar(text[i])) ==> SanitizeSlug(text) == text
  {
  }

  /** The characters kept are those of the input that are slug characters, in order. */
  lemma {:induction false} SanitizeSlugKeepsSlugChars(text: string)
    ensures multiset(SanitizeSlug(text)) <= multiset(text)
    ensures forall c :: IsSlugChar(c) ==> multiset(SanitizeSlug(text))[c] == multiset(text)[c]
  {
    if text != [] {
      SanitizeSlugKeepsSlugChars(text[1..]);
      assert text == [text[0]] + text[1..];
    }
  }

  /** The screen list after typing `text` into the slug input of the field `oldId`. */
  function SlugEdit(screens: seq<Screen>, oldId: string, text: string): (r: seq<Screen>)
    ensures |r| == |screens|
  {
    RenameFieldId(screens, oldId, SanitizeSlug(text))
  }

  /**
   * Clearing the slug input (or typing only rejected characters) renames
   * the field to the empty id, as long as no field already has it.
   */
  lemma ClearedSlugRenamesToEmpty(screens: seq<Screen>, oldId: string, text: string, s: nat)
    requires forall i :: 0 <= i < |text| ==> !IsSlugChar(text[i])
    requires oldId != "" && !AnyHasField(screens, "")
    requires s < |screens| && HasField(screens[s].fields, oldId)
    ensures SlugEdit(screens, oldId, text)[s].fields[IndexOfField(screens[s].fields, oldId)].id == ""
  {
    assert SanitizeSlug(text) == "";
    RenameIds(screens, oldId, "", s, IndexOfField(screens[s].fields, oldId));
  }
}
