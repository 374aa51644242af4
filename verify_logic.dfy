/**
 * The stand-alone visibility check of verify_logic.js: a flat
 * (non-recursive) variant of the renderer's rule that never looks at the
 * visibility of the fields a condition depends on, always combines
 * conditions with AND, and treats every operator other than `equals` and
 * `not_equals` as satisfied. The four scenario fields and the five
 * response sets of its test run are modelled as constants.
 */
module VerifyLogic {
  import opened Js
  import opened FormModel
  import opened Visibility

  /** One condition in the flat check: only `equals` and `not_equals` can fail. */
  predicate FlatConditionMet(c: Condition, r: Responses)
  {
    var current := Lookup(r, DependentId(c));
    if c.operator == "equals" then LooseEquals(current, c.value)
    else if c.operator == "not_equals" then !LooseEquals(current, c.value)
    else true
  }

  /** `isFieldVisible(field, responses)`. */
  predicate FlatVisible(f: Field, r: Responses)
  {
    if !HasConditions(f) then true
    else
      var cs := ConditionsOf(f).value;
      var allMet := forall i :: 0 <= i < |cs| ==> FlatConditionMet(cs[i], r);
      if IsHide(f) then !allMet else allMet
  }

  // ---------------------------------------------------------------------
  // General properties of the flat check

  /** A field without conditions is visible whatever the responses. */
  lemma FlatNoConditionsVisible(f: Field, r: Responses)
    requires !HasConditions(f)
    ensures FlatVisible(f, r)
  {
  }

  /** An operator the flat check does not know is satisfied, where the renderer's check fails it. */
  lemma FlatUnknownOperatorHolds(c: Condition, r: Responses)
    requires c.operator != "equals" && c.operator != "not_equals"
    ensures FlatConditionMet(c, r)
    ensures c.operator !in {"contains", "in", "greater_than", "less_than", "not_empty"} ==>
              !OperatorHolds(c.operator, Lookup(r, DependentId(c)), c.value)
  {
  }

  /** `hide` negates the all-conditions result; any other action shows on it. */
  lemma FlatActionSemantics(f: Field, r: Responses)
    requires HasConditions(f)
    ensures FlatVisible(f, r) <==>
      (IsHide(f) != forall i :: 0 <= i < |ConditionsOf(f).value| ==> FlatConditionMet(ConditionsOf(f).value[i], r))
  {
  }

  /** `matchType` plays no part in the flat check. */
  lemma FlatIgnoresMatchType(f: Field, r: Responses, m: string)
    requires f.logic.Some?
    ensures FlatVisible(f, r) == FlatVisible(f.(logic := Some(f.logic.value.(matchType := m))), r)
  {
  }

  /**
   * Where the dependencies are not in the schema and only `equals` is used,
   * the flat check and the renderer's check agree on every `show`/`hide` field
   * with `all` matching.
   */
  lemma FlatAgreesOnIndependentEquals(f: Field, r: Responses, fm: FieldMap)
    requires KeyedById(fm) && HasConditions(f) && !MatchAny(f)
    requires forall c :: c in ConditionsOf(f).value ==> c.operator == "equals" && DependentId(c) !in fm
    ensures FlatVisible(f, r) == IsVisible(f, r, fm)
  {
    var cs := ConditionsOf(f).value;
    forall i | 0 <= i < |cs|
      ensures FlatConditionMet(cs[i], r) == ConditionMet(cs[i], r, fm, {}, f.id)
    {
      assert cs[i] in cs;
    }
    assert ConditionsMet(cs, false, r, fm, {}, f.id) == forall i :: 0 <= i < |cs| ==> FlatConditionMet(cs[i], r);
  }

  // ---------------------------------------------------------------------
  // The scenario of the test run

  function EqualsCondition(dep: string, v: string): Condition
  {
    Condition(dep, "", "equals", Str(v))
  }

  function ShowWhen(id: string, dep: string, v: string): (f: Field)
    ensures f.id == id && HasConditions(f) && !IsHide(f) && !MatchAny(f)
    ensures ConditionsOf(f).value == [EqualsCondition(dep, v)]
  {
    PlainField(id, "").(logic := Some(Logic("show", "", Some([EqualsCondition(dep, v)]))))
  }

  /** A one-condition `show` field is visible in the flat check exactly when its dependency equals the value. */
  lemma FlatShowWhen(id: string, dep: string, v: string, r: Responses)
    ensures FlatVisible(ShowWhen(id, dep, v), r) <==> LooseEquals(Lookup(r, dep), Str(v))
  {
    var cs := ConditionsOf(ShowWhen(id, dep, v)).value;
    assert cs[0] == EqualsCondition(dep, v);
  }

  /** The renderer's check of the same field: the single condition decides, evaluated with the field on the path. */
  lemma VisibleShowWhen(id: string, dep: string, v: string, r: Responses, fm: FieldMap, visited: set<string>)
    requires KeyedById(fm) && id !in visited
    ensures Visible(ShowWhen(id, dep, v), r, fm, visited) <==> ConditionMet(EqualsCondition(dep, v), r, fm, visited, id)
  {
    var cs := ConditionsOf(ShowWhen(id, dep, v)).value;
    assert cs[0] == EqualsCondition(dep, v);
  }

  const ProductType: Field := PlainField("product_type", "")
  const CustomerType: Field := ShowWhen("m365_customer_type", "product_type", "M365")
  const ExistingLicense: Field := ShowWhen("m365_existing_license", "m365_customer_type", "Existing M365 Customer")
  const EmailMigration: Field := ShowWhen("m365_email_migration", "m365_customer_type", "New M365 Customer")

  /** The same four fields keyed by id, as the renderer's field map holds them. */
  const ScenarioMap: FieldMap := map[
    "product_type" := ProductType,
    "m365_customer_type" := CustomerType,
    "m365_existing_license" := ExistingLicense,
    "m365_email_migration" := EmailMigration]

  lemma ScenarioMapKeyed()
    ensures KeyedById(ScenarioMap)
  {
  }

  /** Test 1: with nothing answered only the product question shows. */
  lemma ScenarioInitial()
    ensures FlatVisible(ProductType, map[])
    ensures !FlatVisible(CustomerType, map[])
    ensures !FlatVisible(ExistingLicense, map[])
    ensures !FlatVisible(EmailMigration, map[])
  {
    FlatShowWhen("m365_customer_type", "product_type", "M365", map[]);
    FlatShowWhen("m365_existing_license", "m365_customer_type", "Existing M365 Customer", map[]);
    FlatShowWhen("m365_email_migration", "m365_customer_type", "New M365 Customer", map[]);
  }

  /** Test 2: choosing M365 shows the customer-type question and neither follow-up. */
  lemma ScenarioProductChosen()
    ensures var r := map["product_type" := Str("M365")];
      FlatVisible(CustomerType, r) && !FlatVisible(ExistingLicense, r) && !FlatVisible(EmailMigration, r)
  {
    var r := map["product_type" := Str("M365")];
    FlatShowWhen("m365_customer_type", "product_type", "M365", r);
    FlatShowWhen("m365_existing_license", "m365_customer_type", "Existing M365 Customer", r);
    FlatShowWhen("m365_email_migration", "m365_customer_type", "New M365 Customer", r);
  }

  /** Test 3: an existing M365 customer sees the licence question and not the migration one. */
  lemma ScenarioExistingCustomer()
    ensures var r := map["product_type" := Str("M365"), "m365_customer_type" := Str("Existing M365 Customer")];
      FlatVisible(CustomerType, r) && FlatVisible(ExistingLicense, r) && !FlatVisible(EmailMigration, r)
  {
    var r := map["product_type" := Str("M365"), "m365_customer_type" := Str("Existing M365 Customer")];
    FlatShowWhen("m365_customer_type", "product_type", "M365", r);
    FlatShowWhen("m365_existing_license", "m365_customer_type", "Existing M365 Customer", r);
    FlatShowWhen("m365_email_migration", "m365_customer_type", "New M365 Customer", r);
  }

  /** Test 4: a new M365 customer sees the migration question and not the licence one. */
  lemma ScenarioNewCustomer()
    ensures var r := map["product_type" := Str("M365"), "m365_customer_type" := Str("New M365 Customer")];
      FlatVisible(CustomerType, r) && !FlatVisible(ExistingLicense, r) && FlatVisible(EmailMigration, r)
  {
    var r := map["product_type" := Str("M365"), "m365_customer_type" := Str("New M365 Customer")];
    FlatShowWhen("m365_customer_type", "product_type", "M365", r);
    FlatShowWhen("m365_existing_license", "m365_customer_type", "Existing M365 Customer", r);
    FlatShowWhen("m365_email_migration", "m365_customer_type", "New M365 Customer", r);
  }

  /** The answers of test 5: the product switched, the customer type left over. */
  const StaleResponses: Responses :=
    map["product_type" := Str("Google Workspace"), "m365_customer_type" := Str("Existing M365 Customer")]

  /** In the renderer's check the customer-type question hides on any path that does not already hold it. */
  lemma StaleCustomerHidden(visited: set<string>)
    requires "m365_customer_type" !in visited
    ensures KeyedById(ScenarioMap)
    ensures !Visible(CustomerType, StaleResponses, ScenarioMap, visited)
  {
    var fm := ScenarioMap;
    VisibleShowWhen("m365_customer_type", "product_type", "M365", StaleResponses, fm, visited);
    assert fm["product_type"] == ProductType;
    assert Lookup(StaleResponses, "product_type") == Str("Google Workspace");
  }

  /** ... and so the licence question, which depends on it, hides too. */
  lemma StaleLicenseHidden()
    ensures KeyedById(ScenarioMap)
    ensures !IsVisible(ExistingLicense, StaleResponses, ScenarioMap)
  {
    var fm := ScenarioMap;
    VisibleShowWhen("m365_existing_license", "m365_customer_type", "Existing M365 Customer", StaleResponses, fm, {});
    StaleCustomerHidden({"m365_existing_license"});
    var empty: set<string> := {};
    assert empty + {"m365_existing_license"} == {"m365_existing_license"};
    assert fm["m365_customer_type"] == CustomerType;
  }

  /**
   * Test 5: after switching the product with the stale customer type kept,
   * the customer-type question hides; the flat check still shows the licence
   * question, while the renderer's recursive check hides it.
   */
  lemma ScenarioStaleAnswer()
    ensures KeyedById(ScenarioMap)
    ensures var r := StaleResponses;
      !FlatVisible(CustomerType, r) && FlatVisible(ExistingLicense, r) &&
      !IsVisible(CustomerType, r, ScenarioMap) && !IsVisible(ExistingLicense, r, ScenarioMap)
  {
    FlatShowWhen("m365_customer_type", "product_type", "M365", StaleResponses);
    FlatShowWhen("m365_existing_license", "m365_customer_type", "Existing M365 Customer", StaleResponses);
    StaleCustomerHidden({});
    StaleLicenseHidden();
  }
}
