/**
 * Conditional field visibility as the form renderer evaluates it
 * (`evaluateFieldVisibility` in src/components/DynamicForm.jsx): a field is
 * visible when it has no conditions; otherwise its conditions are combined
 * with AND (or OR for `matchType: 'any'`) and the result is negated for
 * `action: 'hide'`. A condition on a field that exists in the schema but is
 * itself hidden is false. A field already on the path being evaluated
 * counts as visible, which is what makes cyclic dependencies terminate.
 */
module Visibility {
  import opened Js
  import opened FormModel

  /** The renderer's responses: field id to stored value (missing = undefined). */
  type Responses = map<string, Value>

  /** `allFieldsMap`: field id to field. */
  type FieldMap = map<string, Field>

  /** Every entry is stored under its own id, as `map[f.id] = f` builds it. */
  predicate KeyedById(fm: FieldMap)
  {
    forall k :: k in fm ==> fm[k].id == k
  }

  function Lookup(r: Responses, k: string): (v: Value)
    ensures k !in r ==> v.Undefined?
  {
    if k in r then r[k] else Undefined
  }

  /** `logic.conditions || field.conditions`. */
  function ConditionsOf(f: Field): Option<seq<Condition>>
  {
    if f.logic.Some? && f.logic.value.conditions.Some? then f.logic.value.conditions else f.conditions
  }

  predicate HasConditions(f: Field)
  {
    ConditionsOf(f).Some? && |ConditionsOf(f).value| > 0
  }

  /** `(logic.matchType || 'all') === 'any'`. */
  predicate MatchAny(f: Field)
  {
    f.logic.Some? && f.logic.value.matchType == "any"
  }

  /** `logic.action === 'hide'`. */
  predicate IsHide(f: Field)
  {
    f.logic.Some? && f.logic.value.action == "hide"
  }

  /** `condition.field_id || condition.field`. */
  function DependentId(c: Condition): string
  {
    if c.fieldId != "" then c.fieldId else c.field
  }

  /** The operator switch: `current` is the stored response, `target` the condition's value. */
  predicate OperatorHolds(op: string, current: Value, target: Value)
  {
    if op == "equals" then LooseEquals(current, target)
    else if op == "not_equals" then !LooseEquals(current, target)
    else if op == "contains" then current.Arr? && Includes(current.items, target)
    else if op == "in" then target.Arr? && Includes(target.items, current)
    else if op == "greater_than" then NumberGreater(current, target)
    else if op == "less_than" then NumberGreater(target, current)
    else if op == "not_empty" then !current.Undefined? && !current.Null? && current != Str("")
    else false
  }

  /** Fields not yet on the evaluation path: the quantity each recursive step shrinks. */
  function Pending(fm: FieldMap, id: string, visited: set<string>): nat
  {
    |(fm.Keys + {id}) - visited|
  }

  lemma PendingShrinks(fm: FieldMap, self: string, dep: string, visited: set<string>)
    requires dep in fm && self !in visited
    ensures Pending(fm, dep, visited + {self}) < Pending(fm, self, visited)
  {
    var a := (fm.Keys + {dep}) - (visited + {self});
    var b := (fm.Keys + {self}) - visited;
    assert b == a + {self};
  }

  /** `evaluateFieldVisibility(field, responses, allFieldsMap, visited)`. */
  predicate Visible(f: Field, r: Responses, fm: FieldMap, visited: set<string>)
    requires KeyedById(fm)
    decreases Pending(fm, f.id, visited), 2
  {
    if f.id in visited then true
    else if !HasConditions(f) then true
    else
      var met := ConditionsMet(ConditionsOf(f).value, MatchAny(f), r, fm, visited, f.id);
      if IsHide(f) then !met else met
  }

  /** `conditions.some(...)` for `any`, `conditions.every(...)` otherwise. */
  predicate ConditionsMet(cs: seq<Condition>, any: bool, r: Responses, fm: FieldMap, visited: set<string>, self: string)
    requires KeyedById(fm) && self !in visited
    decreases Pending(fm, self, visited), 1
  {
    if any then exists i :: 0 <= i < |cs| && ConditionMet(cs[i], r, fm, visited, self)
    else forall i :: 0 <= i < |cs| ==> ConditionMet(cs[i], r, fm, visited, self)
  }

  /** One condition of field `self`, evaluated with `self` added to the path. */
  predicate ConditionMet(c: Condition, r: Responses, fm: FieldMap, visited: set<string>, self: string)
    requires KeyedById(fm) && self !in visited
    decreases Pending(fm, self, visited), 0
  {
    var dep := DependentId(c);
    if dep in fm && !(PendingShrinks(fm, self, dep, visited); Visible(fm[dep], r, fm, visited + {self})) then false
    else OperatorHolds(c.operator, Lookup(r, dep), c.value)
  }

  /** The entry point: `evaluateFieldVisibility(field, responses, allFieldsMap)`. */
  predicate IsVisible(f: Field, r: Responses, fm: FieldMap)
    requires KeyedById(fm)
  {
    Visible(f, r, fm, {})
  }

  // ---------------------------------------------------------------------
  // Properties

  /** A field with no conditions at all, or an empty list, is visible. */
  lemma NoConditionsVisible(f: Field, r: Responses, fm: FieldMap, visited: set<string>)
    requires KeyedById(fm)
    requires ConditionsOf(f).None? || ConditionsOf(f).value == []
    ensures Visible(f, r, fm, visited)
  {
  }

  /** A field already on the evaluation path is taken as visible (the cycle guard). */
  lemma VisitedIsVisible(f: Field, r: Responses, fm: FieldMap, visited: set<string>)
    requires KeyedById(fm) && f.id in visited
    ensures Visible(f, r, fm, visited)
  {
  }

  /** A condition whose dependent field is in the schema but hidden fails, whatever is stored for it. */
  lemma HiddenDependencyFails(c: Condition, r: Responses, fm: FieldMap, visited: set<string>, self: string)
    requires KeyedById(fm) && self !in visited
    requires DependentId(c) in fm && !Visible(fm[DependentId(c)], r, fm, visited + {self})
    ensures !ConditionMet(c, r, fm, visited, self)
  {
  }

  /** A condition on a field outside the schema only compares the stored value. */
  lemma UnknownDependencyCompares(c: Condition, r: Responses, fm: FieldMap, visited: set<string>, self: string)
    requires KeyedById(fm) && self !in visited
    requires DependentId(c) !in fm
    ensures ConditionMet(c, r, fm, visited, self) == OperatorHolds(c.operator, Lookup(r, DependentId(c)), c.value)
  {
  }

  /** Operator semantics: `in`, `contains`, `not_empty`, and unknown operators. */
  lemma OperatorSemantics(op: string, current: Value, target: Value)
    ensures op == "in" ==> (OperatorHolds(op, current, target) <==> target.Arr? && Includes(target.items, current))
    ensures op == "contains" ==> (OperatorHolds(op, current, target) <==> current.Arr? && Includes(current.items, target))
    ensures op == "not_empty" ==> (OperatorHolds(op, current, target) <==> current !in {Undefined, Null, Str("")})
    ensures op !in {"equals", "not_equals", "contains", "in", "greater_than", "less_than", "not_empty"} ==>
              !OperatorHolds(op, current, target)
  {
  }

  /** `equals` is symmetric in its two operands, and `not_equals` is its exact negation. */
  lemma EqualsSymmetric(a: Value, b: Value)
    ensures OperatorHolds("equals", a, b) == OperatorHolds("equals", b, a)
    ensures OperatorHolds("not_equals", a, b) == !OperatorHolds("equals", a, b)
  {
    LooseEqualsSymmetric(a, b);
  }

  /** `less_than` is `greater_than` with the operands swapped. */
  lemma LessIsSwappedGreater(a: Value, b: Value)
    ensures OperatorHolds("less_than", a, b) == OperatorHolds("greater_than", b, a)
  {
  }

  function WithAction(f: Field, action: string): (g: Field)
    requires f.logic.Some?
    ensures g.id == f.id && ConditionsOf(g) == ConditionsOf(f) && MatchAny(g) == MatchAny(f)
  {
    f.(logic := Some(f.logic.value.(action := action)))
  }

  /** `hide` yields exactly the negation of what `show` yields, for any field with conditions. */
  lemma HideNegatesShow(f: Field, r: Responses, fm: FieldMap, visited: set<string>)
    requires KeyedById(fm) && f.logic.Some? && HasConditions(f) && f.id !in visited
    ensures Visible(WithAction(f, "hide"), r, fm, visited) == !Visible(WithAction(f, "show"), r, fm, visited)
  {
  }

  /** `any` is a disjunction and every other match type a conjunction over the conditions. */
  lemma MatchTypeSemantics(f: Field, r: Responses, fm: FieldMap, visited: set<string>)
    requires KeyedById(fm) && HasConditions(f) && f.id !in visited && !IsHide(f)
    ensures MatchAny(f) ==> (Visible(f, r, fm, visited) <==>
      exists i :: 0 <= i < |ConditionsOf(f).value| && ConditionMet(ConditionsOf(f).value[i], r, fm, visited, f.id))
    ensures !MatchAny(f) ==> (Visible(f, r, fm, visited) <==>
      forall i :: 0 <= i < |ConditionsOf(f).value| ==> ConditionMet(ConditionsOf(f).value[i], r, fm, visited, f.id))
  {
  }
}
