/**
 * The value logic of one rendered field (src/components/FormField.jsx): the
 * required marker next to the label, the value handed to a select control,
 * which radio option is checked, and the list a checkbox click produces.
 *
 * A stored value is a JavaScript value; a checkbox works on `value || []`,
 * so a stored string is spread into its characters when a box is checked,
 * and a stored number or `true` makes the handler throw (modelled as `None`).
 */
module FormFieldView {
  import opened Js
  import opened FormModel
  import Dict

  // ---------------------------------------------------------------------
  // Required marker and select value

  /** `!!validation_rules?.required`: the asterisk reads the rule object, not the `required` flag. */
  predicate RequiredMarker(f: Field)
  {
    var v := Dict.Get(f.validationRules, "required");
    v.Some? && Truthy(v.value)
  }

  /** The marker ignores the top-level `required` flag altogether. */
  lemma MarkerIgnoresRequiredFlag(f: Field, flag: bool)
    ensures RequiredMarker(f.(required := flag)) == RequiredMarker(f)
  {
  }

  /** `String(value || '')`, the value handed to a select control. */
  function SelectValue(value: Value): (s: string)
    ensures !Truthy(value) ==> s == ""
    ensures value.Str? ==> s == value.s
  {
    ToStr(Or(value, Str("")))
  }

  // ---------------------------------------------------------------------
  // Radio options

  /** `opt.value`: a bare-string option has no `value` property. */
  function OptionValue(o: FieldOption): (v: Value)
    ensures o.OptionText? <==> v.Undefined?
  {
    match o
    case OptionText(_) => Undefined
    case OptionPair(_, value) => Str(value)
  }

  /** `checked={value === opt.value}`. */
  predicate RadioChecked(value: Value, o: FieldOption)
  {
    StrictEquals(value, OptionValue(o))
  }

  /** With distinct option values, at most one radio option is checked. */
  lemma AtMostOneRadioChecked(value: Value, opts: seq<FieldOption>, i: nat, j: nat)
    requires forall a, b :: 0 <= a < b < |opts| ==> OptionValue(opts[a]) != OptionValue(opts[b])
    requires i < |opts| && j < |opts| && RadioChecked(value, opts[i]) && RadioChecked(value, opts[j])
    ensures i == j
  {
  }

  /** An unanswered radio group checks every bare-string option, since `undefined === undefined`. */
  lemma UnansweredBareOptionChecked(s: string)
    ensures RadioChecked(Undefined, OptionText(s))
    ensures forall v :: RadioChecked(Undefined, OptionPair(s, v)) == false
  {
  }

  // ---------------------------------------------------------------------
  // Checkboxes

  /** `[...s]`: a string spread into one-character strings. */
  function Chars(s: string): (items: seq<Value>)
    ensures |items| == |s|
    ensures forall i :: 0 <= i < |s| ==> items[i] == Str([s[i]])
  {
    seq(|s|, i requires 0 <= i < |s| => Str([s[i]]))
  }

  /** `list.filter(v => v !== target)`. */
  function Without(items: seq<Value>, target: Value): (r: seq<Value>)
    ensures |r| <= |items|
    ensures forall x :: x in r <==> x in items && !StrictEquals(x, target)
  {
    if items == [] then []
    else if StrictEquals(items[0], target) then Without(items[1..], target)
    else [items[0]] + Without(items[1..], target)
  }

  /** Filtering keeps a list with no match unchanged. */
  lemma {:induction false} WithoutAbsent(items: seq<Value>, target: Value)
    requires !Includes(items, target)
    ensures Without(items, target) == items
  {
    if items != [] {
      assert !StrictEquals(items[0], target);
      WithoutAbsent(items[1..], target);
    }
  }

  /**
   * The new value sent by a checkbox's `onChange`: `[...(value || []), opt.value]`
   * when checked, `(value || []).filter(v => v !== opt.value)` when unchecked.
   * `None` where the handler throws.
   */
  function CheckboxToggle(value: Value, optionValue: string, checked: bool): (r: Option<Value>)
    ensures r.Some? ==> r.value.Arr?
    ensures !Truthy(value) ==> r == Some(Arr(if checked then [Str(optionValue)] else []))
    ensures value.Arr? ==> r.Some?
    ensures checked && value.Arr? ==> r.value.items == value.items + [Str(optionValue)]
  {
    if !Truthy(value) then Some(Arr(if checked then [Str(optionValue)] else []))
    else match value
      case Arr(items) => Some(Arr(if checked then items + [Str(optionValue)] else Without(items, Str(optionValue))))
      case Str(s) => if checked then Some(Arr(Chars(s) + [Str(optionValue)])) else None
      case _ => None
  }

  /** `(value || []).includes(opt.value)`; on a string this is a substring test. */
  function IsChecked(value: Value, optionValue: string): (r: Option<bool>)
    ensures value.Arr? ==> r == Some(Includes(value.items, Str(optionValue)))
    ensures !Truthy(value) ==> r == Some(false)
  {
    if !Truthy(value) then Some(false)
    else match value
      case Arr(items) => Some(Includes(items, Str(optionValue)))
      case Str(s) => Some(Contains(s, optionValue))
      case _ => None
  }

  /** After a click the box shows the state that was clicked. */
  lemma ToggleShowsClickedState(value: Value, optionValue: string, checked: bool)
    requires CheckboxToggle(value, optionValue, checked).Some?
    ensures IsChecked(CheckboxToggle(value, optionValue, checked).value, optionValue) == Some(checked)
  {
    var items := CheckboxToggle(value, optionValue, checked).value.items;
    if checked {
      assert items[|items| - 1] == Str(optionValue);
    }
  }

  /** Unchecking keeps every other value of the list, and drops every copy of the unchecked one. */
  lemma UncheckKeepsOthers(items: seq<Value>, optionValue: string, x: Value)
    requires |items| > 0
    ensures CheckboxToggle(Arr(items), optionValue, false).Some?
    ensures x in CheckboxToggle(Arr(items), optionValue, false).value.items <==> x in items && x != Str(optionValue)
  {
  }

  /** Checking a box and unchecking it again restores a list that did not hold the value. */
  lemma CheckThenUncheck(items: seq<Value>, optionValue: string)
    requires !Includes(items, Str(optionValue))
    ensures CheckboxToggle(Arr(items), optionValue, true) == Some(Arr(items + [Str(optionValue)]))
    ensures CheckboxToggle(Arr(items + [Str(optionValue)]), optionValue, false) == Some(Arr(items))
  {
    var v := Str(optionValue);
    WithoutFilterAppend(items, [v], v);
    WithoutAbsent(items, v);
    assert Without([v], v) == [];
    assert Without(items + [v], v) == items + [];
    assert items + [] == items;
  }

  lemma {:induction false} WithoutFilterAppend(a: seq<Value>, b: seq<Value>, target: Value)
    ensures Without(a + b, target) == Without(a, target) + Without(b, target)
  {
    if a == [] {
      assert a + b == b;
    } else {
      assert (a + b)[1..] == a[1..] + b;
      WithoutFilterAppend(a[1..], b, target);
    }
  }
}
