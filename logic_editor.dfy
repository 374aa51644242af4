/**
 * The conditional-logic editor of one field
 * (src/modules/forms/builder/ConditionalLogicEditor.jsx). Every handler
 * copies the condition list, edits the copy and hands a new logic object to
 * the builder, so each one is a function from the old logic object to the
 * new one.
 */
module LogicEditor {
  import opened Js
  import opened FormModel
  import opened Visibility
  import opened FormBuilder

  /** `value || {action: 'show', conditions: []}`. */
  function EffectiveLogic(value: Option<Logic>): (l: Logic)
    ensures value.Some? ==> l == value.value
  {
    if value.Some? then value.value else Logic("show", "", Some([]))
  }

  /** A field whose logic is the editor's default is shown, whatever has been answered. */
  lemma DefaultLogicShows(f: Field, r: Responses, fm: FieldMap)
    requires KeyedById(fm) && f.logic == Some(EffectiveLogic(None)) && f.conditions.None?
    ensures IsVisible(f, r, fm)
  {
    NoConditionsVisible(f, r, fm, {});
  }

  /** `logic.conditions || []`. */
  function ConditionList(l: Logic): (cs: seq<Condition>)
    ensures l.conditions.None? ==> cs == []
  {
    if l.conditions.Some? then l.conditions.value else []
  }

  /** The condition `addCondition` appends: no dependent field yet, `equals`, empty value. */
  const BlankCondition: Condition := Condition("", "", "equals", Str(""))

  /** `addCondition`. */
  function AddCondition(l: Logic): (m: Logic)
    ensures m.action == l.action && m.matchType == l.matchType
    ensures |ConditionList(m)| == |ConditionList(l)| + 1
    ensures ConditionList(m)[..|ConditionList(l)|] == ConditionList(l)
    ensures ConditionList(m)[|ConditionList(l)|] == BlankCondition
  {
    l.(conditions := Some(ConditionList(l) + [BlankCondition]))
  }

  /** `removeCondition(index)`: `splice(index, 1)` on a copy; a negative index counts from the end. */
  function RemoveCondition(l: Logic, index: int): (m: Logic)
    ensures m.action == l.action && m.matchType == l.matchType
    ensures 0 <= index < |ConditionList(l)| ==>
              ConditionList(m) == ConditionList(l)[..index] + ConditionList(l)[index + 1..]
    ensures index >= |ConditionList(l)| ==> ConditionList(m) == ConditionList(l)
    ensures var cs := ConditionList(l);
      -|cs| <= index < 0 ==> ConditionList(m) == cs[..|cs| + index] + cs[|cs| + index + 1..]
    ensures var cs := ConditionList(l);
      index < -|cs| && cs != [] ==> ConditionList(m) == cs[1..]
  {
    l.(conditions := Some(SpliceOne(ConditionList(l), index)))
  }

  /** Removing the condition just added gives back the original list. */
  lemma RemoveUndoesAdd(l: Logic)
    ensures ConditionList(RemoveCondition(AddCondition(l), |ConditionList(l)|)) == ConditionList(l)
  {
  }

  /** One `updateCondition(index, key, val)`: the key is `field_id`, `operator` or `value`. */
  datatype ConditionEdit = SetDependent(id: string) | SetOperator(op: string) | SetValue(v: Value)

  /** `{...condition, [key]: val}`, with the value cleared when the dependent field changes. */
  function EditCondition(c: Condition, e: ConditionEdit): (d: Condition)
    ensures d.field == c.field
    ensures e.SetDependent? ==> d.fieldId == e.id && d.operator == c.operator && d.value == Str("")
    ensures e.SetOperator? ==> d == c.(operator := e.op)
    ensures e.SetValue? ==> d == c.(value := e.v)
  {
    match e
    case SetDependent(id) => c.(fieldId := id, value := Str(""))
    case SetOperator(op) => c.(operator := op)
    case SetValue(v) => c.(value := v)
  }

  /** `updateCondition`: only the condition at `index` changes. */
  function UpdateCondition(l: Logic, index: nat, e: ConditionEdit): (m: Logic)
    requires index < |ConditionList(l)|
    ensures m.action == l.action && m.matchType == l.matchType
    ensures |ConditionList(m)| == |ConditionList(l)|
    ensures ConditionList(m)[index] == EditCondition(ConditionList(l)[index], e)
    ensures forall j :: 0 <= j < |ConditionList(l)| && j != index ==> ConditionList(m)[j] == ConditionList(l)[j]
  {
    l.(conditions := Some(ConditionList(l)[index := EditCondition(ConditionList(l)[index], e)]))
  }

  /** Choosing a dependent field makes the condition read that field's answer, compared against `''`. */
  lemma SetDependentRetargets(l: Logic, index: nat, id: string)
    requires index < |ConditionList(l)| && id != ""
    ensures var c := ConditionList(UpdateCondition(l, index, SetDependent(id)))[index];
      DependentId(c) == id && c.value == Str("")
  {
  }

  /** The match-type select: `{...logic, matchType: val}`. */
  function SetMatchType(l: Logic, m: string): (n: Logic)
    ensures n.action == l.action && n.conditions == l.conditions && n.matchType == m
  {
    l.(matchType := m)
  }

  /** Choosing `any` makes the renderer combine the field's conditions with OR. */
  lemma SetMatchTypeAny(f: Field)
    requires f.logic.Some?
    ensures MatchAny(f.(logic := Some(SetMatchType(f.logic.value, "any"))))
    ensures ConditionsOf(f.(logic := Some(SetMatchType(f.logic.value, "any")))) == ConditionsOf(f)
  {
  }

  // ---------------------------------------------------------------------
  // getFieldOptions

  /** A bare-string option lifted to `{label: s, value: s}`. */
  function LiftOption(o: FieldOption): (p: FieldOption)
    ensures p.OptionPair?
    ensures o.OptionPair? ==> p == o
    ensures o.OptionText? ==> p.caption == o.text && p.value == o.text
  {
    match o
    case OptionText(s) => OptionPair(s, s)
    case OptionPair(_, _) => o
  }

  /** The value a condition must hold to match this option: the stored value, never the label. */
  function StoredValue(o: FieldOption): string
  {
    match o
    case OptionText(s) => s
    case OptionPair(_, v) => v
  }

  /** `field.options && Array.isArray(field.options) && field.options.length > 0`. */
  predicate HasOptions(f: Field)
  {
    f.options.Some? && |f.options.value| > 0
  }

  /**
   * `getFieldOptions(fieldId)` over the candidate fields: `None` for an
   * unknown field or one without options, otherwise its options lifted.
   */
  function FieldOptions(available: seq<Field>, fieldId: string): (r: Option<seq<FieldOption>>)
    ensures r.None? <==> (!HasField(available, fieldId) || !HasOptions(available[IndexOfField(available, fieldId)]))
    ensures r.Some? ==> |r.value| > 0 && forall i :: 0 <= i < |r.value| ==> r.value[i].OptionPair?
  {
    var i := IndexOfField(available, fieldId);
    if i == |available| then None
    else
      var f := available[i];
      if HasOptions(f) then
        Some(seq(|f.options.value|, k requires 0 <= k < |f.options.value| => LiftOption(f.options.value[k])))
      else None
  }

  /** The dropdown offers, position by position, the values the field stores for its options. */
  lemma FieldOptionsOfferStoredValues(available: seq<Field>, fieldId: string)
    requires FieldOptions(available, fieldId).Some?
    ensures var f := available[IndexOfField(available, fieldId)];
      var r := FieldOptions(available, fieldId).value;
      f.options.Some? && |r| == |f.options.value| &&
      forall k :: 0 <= k < |r| ==> r[k].value == StoredValue(f.options.value[k])
  {
  }
}
