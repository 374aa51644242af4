/**
 * The form schema shared by the form builder and the form renderer: a form
 * is a list of screens, each a list of fields; a field may carry
 * conditional-visibility logic whose conditions name other fields.
 *
 * Two notions of "required" coexist and are kept apart on purpose:
 * `required` is the top-level flag that the renderer validates, while
 * `validationRules` holds the builder's rule object, whose `required` key
 * drives the builder switch and the asterisk shown next to a label.
 */
module FormModel {
  import opened Js
  import Dict

  /** One visibility condition: `{field_id, field, operator, value}`; a missing id is `""`. */
  datatype Condition = Condition(fieldId: string, field: string, operator: string, value: Value)

  /**
   * `conditional_logic`: `action` and `matchType` are `""` when absent;
   * `conditions` is `None` when absent or null.
   */
  datatype Logic = Logic(action: string, matchType: string, conditions: Option<seq<Condition>>)

  /** The renderer's `validation` object; absent strings are `""`, absent bounds `None`. */
  datatype Validation = Validation(regex: string, errorMessage: string, min: Option<int>, max: Option<int>)

  /** An entry of `options`: either a bare string or a `{label, value}` object (`label` is a Dafny keyword, hence `caption`). */
  datatype FieldOption = OptionText(text: string) | OptionPair(caption: string, value: string)

  datatype Field = Field(
    id: string,
    ftype: string,
    caption: string,
    placeholder: string,
    required: bool,
    validation: Option<Validation>,
    validationRules: Dict.Dict<Value>,
    options: Option<seq<FieldOption>>,
    logic: Option<Logic>,
    conditions: Option<seq<Condition>>)

  datatype Screen = Screen(id: string, title: string, fields: seq<Field>)

  /** A form schema: top-level `fields`, `screens`, or both (or neither). */
  datatype Schema = Schema(title: string, fields: Option<seq<Field>>, screens: Option<seq<Screen>>)

  /** A field with only an id and a type, every other attribute absent. */
  function PlainField(id: string, ftype: string): (f: Field)
    ensures f.id == id && f.logic.None? && f.conditions.None?
  {
    Field(id, ftype, "", "", false, None, Dict.Empty(), None, None, None)
  }

  /** `fields.flatMap`-style concatenation of every screen's fields, in screen order. */
  function AllFields(screens: seq<Screen>): (fs: seq<Field>)
    ensures |screens| == 0 ==> fs == []
  {
    if screens == [] then [] else screens[0].fields + AllFields(screens[1..])
  }

  lemma {:induction false} AllFieldsAppend(a: seq<Screen>, b: seq<Screen>)
    ensures AllFields(a + b) == AllFields(a) + AllFields(b)
  {
    if a != [] {
      var x, t := a[0], a[1..];
      calc {
        AllFields(a + b);
        { assert a + b == [x] + (t + b); AllFieldsCons(x, t + b); }
        x.fields + AllFields(t + b);
        { AllFieldsAppend(t, b); }
        x.fields + (AllFields(t) + AllFields(b));
        { AppendAssoc(x.fields, AllFields(t), AllFields(b)); }
        (x.fields + AllFields(t)) + AllFields(b);
        { assert a == [x] + t; AllFieldsCons(x, t); }
        AllFields(a) + AllFields(b);
      }
    } else {
      assert a + b == b;
    }
  }

  lemma AllFieldsCons(x: Screen, t: seq<Screen>)
    ensures AllFields([x] + t) == x.fields + AllFields(t)
  {
    assert ([x] + t)[1..] == t;
  }

  lemma {:induction false} AllFieldsMember(screens: seq<Screen>, f: Field)
    ensures f in AllFields(screens) <==> exists s :: 0 <= s < |screens| && f in screens[s].fields
  {
    if screens != [] {
      AllFieldsMember(screens[1..], f);
      if f in AllFields(screens[1..]) {
        var s :| 0 <= s < |screens| - 1 && f in screens[1..][s].fields;
        assert f in screens[s + 1].fields;
      }
      if exists s :: 0 <= s < |screens| && f in screens[s].fields {
        var s :| 0 <= s < |screens| && f in screens[s].fields;
        if s > 0 { assert f in screens[1..][s - 1].fields; }
      }
    }
  }

  /** Total number of fields over all screens. */
  function FieldCount(screens: seq<Screen>): nat
  {
    |AllFields(screens)|
  }
}
