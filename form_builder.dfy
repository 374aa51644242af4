/**
 * The form builder's Redux slice (src/store/slices/formBuilderSlice.js):
 * a list of screens, each a list of fields, with a selected screen and an
 * optional selected field. The reducers mutate the state in place, so the
 * state is a class whose methods change its fields; what each reducer does
 * to the screen list is given by a function on `seq<Screen>`, and the
 * promises the builder makes (the list is never empty, a rename keeps the
 * logic references consistent, a move is a permutation) are proved about
 * those functions.
 *
 * Ids built from `Date.now().toString(36)` take the time stamp text as a
 * parameter `stamp`.
 */
module FormBuilder {
  import opened Js
  import opened FormModel
  import Dict

  // ---------------------------------------------------------------------
  // Searching screens and fields

  /** `screens.findIndex(s => s.id === id)`, with `|screens|` for "not found". */
  function IndexOfScreen(screens: seq<Screen>, id: string): (i: nat)
    ensures i <= |screens|
    ensures i < |screens| ==> screens[i].id == id
    ensures forall j :: 0 <= j < i ==> screens[j].id != id
  {
    if screens == [] then 0
    else if screens[0].id == id then 0
    else 1 + IndexOfScreen(screens[1..], id)
  }

  /** `fields.findIndex(f => f.id === id)`, with `|fs|` for "not found". */
  function IndexOfField(fs: seq<Field>, id: string): (i: nat)
    ensures i <= |fs|
    ensures i < |fs| ==> fs[i].id == id
    ensures forall j :: 0 <= j < i ==> fs[j].id != id
  {
    if fs == [] then 0
    else if fs[0].id == id then 0
    else 1 + IndexOfField(fs[1..], id)
  }

  predicate HasField(fs: seq<Field>, id: string)
  {
    exists k :: 0 <= k < |fs| && fs[k].id == id
  }

  /** The first screen holding a field with that id, or `|screens|`. */
  function ScreenWithField(screens: seq<Screen>, id: string): (s: nat)
    ensures s <= |screens|
    ensures s < |screens| ==> HasField(screens[s].fields, id)
    ensures forall j :: 0 <= j < s ==> !HasField(screens[j].fields, id)
  {
    if screens == [] then 0
    else if HasField(screens[0].fields, id) then 0
    else 1 + ScreenWithField(screens[1..], id)
  }

  /** `screens.some(s => s.fields.some(f => f.id === id))`. */
  /** The search finds an index exactly when some field has the id. */
  lemma IndexFoundIffHasField(fs: seq<Field>, id: string)
    ensures IndexOfField(fs, id) < |fs| <==> HasField(fs, id)
  {
  }

  predicate AnyHasField(screens: seq<Screen>, id: string)
  {
    exists s :: 0 <= s < |screens| && HasField(screens[s].fields, id)
  }

  lemma ScreenWithFieldFound(screens: seq<Screen>, id: string)
    ensures ScreenWithField(screens, id) < |screens| <==> AnyHasField(screens, id)
  {
  }

  /** Number of fields with that id. */
  function CountId(fs: seq<Field>, id: string): (n: nat)
    ensures n <= |fs|
  {
    if fs == [] then 0
    else (if fs[0].id == id then 1 else 0) + CountId(fs[1..], id)
  }

  /** The count is zero exactly when no field has the id. */
  lemma {:induction false} CountIdZero(fs: seq<Field>, id: string)
    ensures CountId(fs, id) == 0 <==> !HasField(fs, id)
  {
    if fs != [] {
      CountIdZero(fs[1..], id);
      if HasField(fs, id) && fs[0].id != id {
        var k :| 0 <= k < |fs| && fs[k].id == id;
        assert fs[1..][k - 1].id == id;
      }
      if HasField(fs[1..], id) {
        var k :| 0 <= k < |fs| - 1 && fs[1..][k].id == id;
        assert fs[k + 1].id == id;
      }
    }
  }

  /** `fields.filter(f => f.id !== id)`. */
  function FilterOutId(fs: seq<Field>, id: string): (r: seq<Field>)
    ensures |r| == |fs| - CountId(fs, id)
  {
    if fs == [] then []
    else if fs[0].id == id then FilterOutId(fs[1..], id)
    else [fs[0]] + FilterOutId(fs[1..], id)
  }

  /** No field with the id survives the filter. */
  lemma {:induction false} FilterOutIdRemovesAll(fs: seq<Field>, id: string)
    ensures CountId(FilterOutId(fs, id), id) == 0
  {
    if fs != [] {
      FilterOutIdRemovesAll(fs[1..], id);
      if fs[0].id != id {
        var r := FilterOutId(fs, id);
        assert r[1..] == FilterOutId(fs[1..], id);
      }
    }
  }

  /** The filter keeps exactly the fields with another id. */
  lemma {:induction false} FilterOutIdMembers(fs: seq<Field>, id: string, f: Field)
    ensures f in FilterOutId(fs, id) <==> f in fs && f.id != id
  {
    if fs != [] {
      FilterOutIdMembers(fs[1..], id, f);
      assert f in fs <==> f == fs[0] || f in fs[1..];
    }
  }

  /** The filter keeps the relative order of what it keeps: it distributes over concatenation. */
  lemma {:induction false} FilterOutIdAppend(a: seq<Field>, b: seq<Field>, id: string)
    ensures FilterOutId(a + b, id) == FilterOutId(a, id) + FilterOutId(b, id)
  {
    if a == [] {
      assert a + b == b;
    } else {
      var x, t := a[0], a[1..];
      var h, ft, fb := if x.id == id then [] else [x], FilterOutId(t, id), FilterOutId(b, id);
      calc {
        FilterOutId(a + b, id);
        { assert a + b == [x] + (t + b); }
        FilterOutId([x] + (t + b), id);
        { FilterOutIdCons(x, t + b, id); }
        h + FilterOutId(t + b, id);
        { FilterOutIdAppend(t, b, id); }
        h + (ft + fb);
        { AppendAssoc(h, ft, fb); }
        (h + ft) + fb;
        { assert a == [x] + t; FilterOutIdCons(x, t, id); }
        FilterOutId(a, id) + fb;
      }
    }
  }

  lemma FilterOutIdCons(x: Field, t: seq<Field>, id: string)
    ensures FilterOutId([x] + t, id) == (if x.id == id then [] else [x]) + FilterOutId(t, id)
  {
    assert ([x] + t)[1..] == t;
  }

  // ---------------------------------------------------------------------
  // Screens: add, delete, retitle

  /** The id `generateId(kind)` yields for a time stamp. */
  function GeneratedId(kind: string, stamp: string): (id: string)
    ensures StartsWith(id, kind + "_")
  {
    kind + "_" + stamp
  }

  /** The screen `addScreen` appends: `Screen n+1`, no fields. */
  function NewScreen(count: nat, stamp: string): (s: Screen)
    ensures s.fields == [] && s.id == GeneratedId("screen", stamp)
    ensures s.title == "Screen " + NatToString(count + 1)
  {
    Screen(GeneratedId("screen", stamp), "Screen " + NatToString(count + 1), [])
  }

  /**
   * The screen list after `deleteScreen(id)`: unchanged when at most one
   * screen remains or no screen has the id; otherwise without exactly the
   * first screen with that id.
   */
  function DeleteScreenFrom(screens: seq<Screen>, id: string): (r: seq<Screen>)
    ensures |screens| >= 1 ==> |r| >= 1
    ensures var i := IndexOfScreen(screens, id);
      if |screens| <= 1 || i == |screens| then r == screens
      else |r| == |screens| - 1 && r[..i] == screens[..i] && r[i..] == screens[i + 1..]
  {
    var i := IndexOfScreen(screens, id);
    if |screens| <= 1 || i == |screens| then screens
    else screens[..i] + screens[i + 1..]
  }

  /** The screen selected after deleting the screen at `i`: the one now at `max(0, i - 1)`. */
  function SelectionAfterDelete(remaining: seq<Screen>, i: nat): (id: string)
    requires |remaining| >= 1 && i <= |remaining|
    ensures i > 0 ==> id == remaining[i - 1].id
    ensures i == 0 ==> id == remaining[0].id
  {
    remaining[if i > 0 then i - 1 else 0].id
  }

  // ---------------------------------------------------------------------
  // New fields

  /** `type.charAt(0).toUpperCase() + type.slice(1)`. */
  function Capitalized(s: string): (r: string)
    ensures |r| == |s|
    ensures s != [] ==> r[0] == UpperChar(s[0]) && r[1..] == s[1..]
  {
    if s == [] then "" else [UpperChar(s[0])] + s[1..]
  }

  predicate IsChoiceType(ftype: string)
  {
    ftype == "select" || ftype == "radio" || ftype == "checkbox"
  }

  /** The field `addField(type)` creates. */
  function NewField(ftype: string, stamp: string): (f: Field)
    ensures ftype == "yes_no" ==>
      f.id == GeneratedId("radio", stamp) && f.ftype == "radio" && f.required &&
      f.options == Some([OptionPair("Yes", "yes"), OptionPair("No", "no")])
    ensures ftype != "yes_no" ==>
      f.id == GeneratedId(ftype, stamp) && f.ftype == ftype && !f.required &&
      f.caption == "New " + Capitalized(ftype) &&
      f.options == (if IsChoiceType(ftype) then Some([OptionPair("Option 1", "option_1")]) else None)
    ensures f.logic.None? && f.conditions.None? && f.validationRules == Dict.Empty() && f.placeholder == ""
  {
    if ftype == "yes_no" then
      Field(GeneratedId("radio", stamp), "radio", "Confirmation", "", true, None, Dict.Empty(),
            Some([OptionPair("Yes", "yes"), OptionPair("No", "no")]), None, None)
    else
      Field(GeneratedId(ftype, stamp), ftype, "New " + Capitalized(ftype), "", false, None, Dict.Empty(),
            if IsChoiceType(ftype) then Some([OptionPair("Option 1", "option_1")]) else None, None, None)
  }

  // ---------------------------------------------------------------------
  // Field edits

  /** The one-key `updates` object the configuration panel sends with `updateField`. */
  datatype FieldPatch =
    | SetCaption(caption: string)
    | SetPlaceholder(placeholder: string)
    | SetRules(rules: Dict.Dict<Value>)
    | SetOptions(options: Option<seq<FieldOption>>)
    | SetLogic(logic: Option<Logic>)

  /** `{...field, ...updates}`. */
  function ApplyPatch(f: Field, p: FieldPatch): (g: Field)
    ensures g.id == f.id && g.ftype == f.ftype && g.required == f.required
  {
    match p
    case SetCaption(c) => f.(caption := c)
    case SetPlaceholder(ph) => f.(placeholder := ph)
    case SetRules(rs) => f.(validationRules := rs)
    case SetOptions(os) => f.(options := os)
    case SetLogic(l) => f.(logic := l)
  }

  /** `updateField`: patch the first field with the id, in the first screen that has one. */
  function PatchFirst(screens: seq<Screen>, id: string, p: FieldPatch): (r: seq<Screen>)
    ensures |r| == |screens|
    ensures forall s :: 0 <= s < |r| ==> r[s].id == screens[s].id && |r[s].fields| == |screens[s].fields|
    ensures var s := ScreenWithField(screens, id);
      s == |screens| ==> r == screens
    ensures var s := ScreenWithField(screens, id);
      s < |screens| ==>
        var j := IndexOfField(screens[s].fields, id);
        r == screens[s := screens[s].(fields := screens[s].fields[j := ApplyPatch(screens[s].fields[j], p)])]
  {
    var s := ScreenWithField(screens, id);
    if s == |screens| then screens
    else
      var fs := screens[s].fields;
      var j := IndexOfField(fs, id);
      screens[s := screens[s].(fields := fs[j := ApplyPatch(fs[j], p)])]
  }

  /** A condition after renaming `oldId` to `newId`: only `field_id === oldId` changes. */
  function RetargetCondition(c: Condition, oldId: string, newId: string): (d: Condition)
    ensures d.fieldId == (if c.fieldId == oldId then newId else c.fieldId)
    ensures d.field == c.field && d.operator == c.operator && d.value == c.value
  {
    if c.fieldId == oldId then c.(fieldId := newId) else c
  }

  /** A field's `conditional_logic` after the rename; fields without logic conditions are untouched. */
  function RetargetField(f: Field, oldId: string, newId: string): (g: Field)
    ensures g.id == f.id && g.conditions == f.conditions && g.required == f.required
    ensures f.logic.None? || f.logic.value.conditions.None? ==> g == f
    ensures f.logic.Some? && f.logic.value.conditions.Some? ==>
      var cs := f.logic.value.conditions.value;
      g.logic.Some? && g.logic.value.action == f.logic.value.action &&
      g.logic.value.matchType == f.logic.value.matchType &&
      g.logic.value.conditions.Some? && |g.logic.value.conditions.value| == |cs| &&
      forall k :: 0 <= k < |cs| ==> g.logic.value.conditions.value[k] == RetargetCondition(cs[k], oldId, newId)
  {
    if f.logic.Some? && f.logic.value.conditions.Some? then
      var cs := f.logic.value.conditions.value;
      var ds := seq(|cs|, k requires 0 <= k < |cs| => RetargetCondition(cs[k], oldId, newId));
      f.(logic := Some(f.logic.value.(conditions := Some(ds))))
    else f
  }

  /** A screen's fields after the rename loop: the first field with `oldId` takes `newId`. */
  function RenameFirstIn(sc: Screen, oldId: string, newId: string): (r: Screen)
    ensures r.id == sc.id && |r.fields| == |sc.fields|
    ensures forall k :: 0 <= k < |r.fields| ==>
      r.fields[k] == if k == IndexOfField(sc.fields, oldId) then sc.fields[k].(id := newId) else sc.fields[k]
  {
    var j := IndexOfField(sc.fields, oldId);
    if j < |sc.fields| then sc.(fields := sc.fields[j := sc.fields[j].(id := newId)]) else sc
  }

  function RetargetScreen(sc: Screen, oldId: string, newId: string): (r: Screen)
    ensures r.id == sc.id && |r.fields| == |sc.fields|
    ensures forall k :: 0 <= k < |r.fields| ==> r.fields[k] == RetargetField(sc.fields[k], oldId, newId)
  {
    sc.(fields := seq(|sc.fields|, k requires 0 <= k < |sc.fields| => RetargetField(sc.fields[k], oldId, newId)))
  }

  /** The screen list after `updateFieldId(oldId, newId)`. */
  function RenameFieldId(screens: seq<Screen>, oldId: string, newId: string): (r: seq<Screen>)
    ensures |r| == |screens|
  {
    if oldId == newId || AnyHasField(screens, newId) then screens
    else (seq(|screens|, s requires 0 <= s < |screens| =>
      RetargetScreen(RenameFirstIn(screens[s], oldId, newId), oldId, newId)))
  }

  /** A rename onto the same id, or onto an id some field already has, changes nothing. */
  lemma RenameRejected(screens: seq<Screen>, oldId: string, newId: string)
    requires oldId == newId || AnyHasField(screens, newId)
    ensures RenameFieldId(screens, oldId, newId) == screens
  {
  }

  /**
   * An accepted rename gives `newId` to the first field with `oldId` on each
   * screen and keeps every other id; screens keep their ids and sizes.
   */
  lemma RenameIds(screens: seq<Screen>, oldId: string, newId: string, s: nat, k: nat)
    requires oldId != newId && !AnyHasField(screens, newId)
    requires s < |screens| && k < |screens[s].fields|
    ensures var r := RenameFieldId(screens, oldId, newId);
      r[s].id == screens[s].id && |r[s].fields| == |screens[s].fields| &&
      r[s].fields[k].id == if k == IndexOfField(screens[s].fields, oldId) then newId else screens[s].fields[k].id
  {
  }

  /**
   * After an accepted rename no condition of any field names `oldId` any
   * more: every condition that did now names `newId`, and no other condition
   * changed.
   */
  lemma RenameRetargetsConditions(screens: seq<Screen>, oldId: string, newId: string, s: nat, k: nat)
    requires oldId != newId && !AnyHasField(screens, newId)
    requires s < |screens| && k < |screens[s].fields|
    requires screens[s].fields[k].logic.Some? && screens[s].fields[k].logic.value.conditions.Some?
    ensures var cs := screens[s].fields[k].logic.value.conditions.value;
      var g := RenameFieldId(screens, oldId, newId)[s].fields[k];
      g.logic.Some? && g.logic.value.conditions.Some? && |g.logic.value.conditions.value| == |cs| &&
      forall i :: 0 <= i < |cs| ==>
        var d := g.logic.value.conditions.value[i];
        d.fieldId != oldId &&
        (cs[i].fieldId == oldId ==> d.fieldId == newId) &&
        (cs[i].fieldId != oldId ==> d == cs[i])
  {
    var r := RenameFieldId(screens, oldId, newId);
    var renamed := RenameFirstIn(screens[s], oldId, newId);
    assert r[s] == RetargetScreen(renamed, oldId, newId);
    assert renamed.fields[k].logic == screens[s].fields[k].logic;
  }

  /** `moveField`: remove the field at `from` and insert it at `to` (dnd-kit's `arrayMove`). */
  function MoveWithin(fs: seq<Field>, from: nat, to: nat): (r: seq<Field>)
    requires from < |fs| && to < |fs|
    ensures |r| == |fs| && r[to] == fs[from]
    ensures r[..to] + r[to + 1..] == fs[..from] + fs[from + 1..]
  {
    var rest := fs[..from] + fs[from + 1..];
    var r := rest[..to] + [fs[from]] + rest[to..];
    assert r[..to] == rest[..to] && r[to + 1..] == rest[to..];
    r
  }

  /** A move is a permutation of the fields. */
  lemma MoveWithinPermutes(fs: seq<Field>, from: nat, to: nat)
    requires from < |fs| && to < |fs|
    ensures multiset(MoveWithin(fs, from, to)) == multiset(fs)
  {
    var r := MoveWithin(fs, from, to);
    assert r == r[..to] + [r[to]] + r[to + 1..];
    assert fs == fs[..from] + [fs[from]] + fs[from + 1..];
    calc {
      multiset(r);
      multiset(r[..to]) + multiset([r[to]]) + multiset(r[to + 1..]);
      multiset(r[..to] + r[to + 1..]) + multiset([fs[from]]);
      multiset(fs[..from] + fs[from + 1..]) + multiset([fs[from]]);
      multiset(fs[..from]) + multiset([fs[from]]) + multiset(fs[from + 1..]);
      multiset(fs);
    }
  }

  /** `screens.find(...).fields.find(f => f.id === fieldId)` over the screens in order. */
  function FirstFieldWithId(screens: seq<Screen>, id: string): (f: Option<Field>)
    ensures f.None? <==> !AnyHasField(screens, id)
    ensures f.Some? ==> f.value.id == id
  {
    var s := ScreenWithField(screens, id);
    if s == |screens| then None
    else Some(screens[s].fields[IndexOfField(screens[s].fields, id)])
  }

  /** Every screen's fields with that id filtered out. */
  function RemoveEverywhere(screens: seq<Screen>, id: string): (r: seq<Screen>)
    ensures |r| == |screens|
    ensures forall s :: 0 <= s < |r| ==> r[s] == screens[s].(fields := FilterOutId(screens[s].fields, id))
  {
    seq(|screens|, s requires 0 <= s < |screens| => screens[s].(fields := FilterOutId(screens[s].fields, id)))
  }

  /** The screen list after `moveFieldToScreen(fieldId, targetScreenId)`. */
  function MoveToScreen(screens: seq<Screen>, id: string, target: string): (r: seq<Screen>)
    ensures |r| == |screens|
  {
    match FirstFieldWithId(screens, id)
    case None => screens
    case Some(f) =>
      var cleaned := RemoveEverywhere(screens, id);
      var t := IndexOfScreen(cleaned, target);
      if t < |cleaned| then cleaned[t := cleaned[t].(fields := cleaned[t].fields + [f])] else cleaned
  }

  /**
   * Moving a field that exists to a screen that exists leaves exactly one
   * field with its id, as the last field of the target; every other field
   * keeps its screen and relative order.
   */
  lemma MoveToScreenExisting(screens: seq<Screen>, id: string, target: string, s: nat)
    requires AnyHasField(screens, id) && IndexOfScreen(screens, target) < |screens| && s < |screens|
    ensures var r := MoveToScreen(screens, id, target);
      var t := IndexOfScreen(screens, target);
      var f := FirstFieldWithId(screens, id).value;
      r[s].id == screens[s].id &&
      r[s].fields == FilterOutId(screens[s].fields, id) + (if s == t then [f] else []) &&
      CountId(r[s].fields, id) == (if s == t then 1 else 0) &&
      |r[s].fields| == |screens[s].fields| - CountId(screens[s].fields, id) + (if s == t then 1 else 0)
  {
    var cleaned := RemoveEverywhere(screens, id);
    var t := IndexOfScreen(screens, target);
    assert IndexOfScreen(cleaned, target) == t by {
      assert forall j :: 0 <= j < |cleaned| ==> cleaned[j].id == screens[j].id;
    }
    var f := FirstFieldWithId(screens, id).value;
    var kept := FilterOutId(screens[s].fields, id);
    FilterOutIdRemovesAll(screens[s].fields, id);
    CountAppend(kept, [f], id);
    assert CountId([f], id) == 1;
  }

  /** Moving to an unknown screen drops the field from every screen. */
  lemma MoveToScreenUnknownTarget(screens: seq<Screen>, id: string, target: string, s: nat)
    requires AnyHasField(screens, id) && IndexOfScreen(screens, target) == |screens| && s < |screens|
    ensures !HasField(MoveToScreen(screens, id, target)[s].fields, id)
  {
    var cleaned := RemoveEverywhere(screens, id);
    assert IndexOfScreen(cleaned, target) == |cleaned| by {
      assert forall j :: 0 <= j < |cleaned| ==> cleaned[j].id == screens[j].id;
    }
    FilterOutIdRemovesAll(screens[s].fields, id);
    CountIdZero(FilterOutId(screens[s].fields, id), id);
  }

  lemma {:induction false} CountAppend(a: seq<Field>, b: seq<Field>, id: string)
    ensures CountId(a + b, id) == CountId(a, id) + CountId(b, id)
  {
    if a == [] {
      assert a + b == b;
    } else {
      CountAppend(a[1..], b, id);
      assert (a + b)[1..] == a[1..] + b;
    }
  }

  // ---------------------------------------------------------------------
  // What `saveForm` sends

  /** A field as `saveForm` serialises it: `required` and `validation` are not part of it. */
  datatype SavedField = SavedField(
    id: string, ftype: string, caption: string, placeholder: string,
    options: Option<seq<FieldOption>>, validationRules: Dict.Dict<Value>, logic: Option<Logic>)

  datatype SavedScreen = SavedScreen(id: string, title: string, fields: seq<SavedField>)

  /** `{name: title, description, schema: {screens}}`. */
  datatype SavePayload = SavePayload(name: string, description: string, screens: seq<SavedScreen>)

  function SaveField(f: Field): (g: SavedField)
    ensures g.id == f.id && g.validationRules == f.validationRules && g.logic == f.logic
  {
    SavedField(f.id, f.ftype, f.caption, f.placeholder, f.options, f.validationRules, f.logic)
  }

  function SaveScreen(s: Screen): (t: SavedScreen)
    ensures t.id == s.id && |t.fields| == |s.fields|
    ensures forall k :: 0 <= k < |s.fields| ==> t.fields[k] == SaveField(s.fields[k])
  {
    SavedScreen(s.id, s.title, seq(|s.fields|, k requires 0 <= k < |s.fields| => SaveField(s.fields[k])))
  }

  function SavePayloadOf(title: string, description: string, screens: seq<Screen>): (p: SavePayload)
    ensures p.name == title && |p.screens| == |screens|
    ensures forall s :: 0 <= s < |screens| ==> p.screens[s] == SaveScreen(screens[s])
  {
    SavePayload(title, description, seq(|screens|, s requires 0 <= s < |screens| => SaveScreen(screens[s])))
  }

  /** How the form renderer reads a saved field back: every attribute the payload lacks is absent. */
  function LoadField(g: SavedField): (f: Field)
    ensures f.id == g.id && !f.required && f.validation.None? && f.validationRules == g.validationRules
  {
    Field(g.id, g.ftype, g.caption, g.placeholder, false, None, g.validationRules, g.options, g.logic, None)
  }

  /**
   * The two notions of "required" do not survive a save together: the
   * top-level flag the renderer enforces is dropped, while the rule object
   * the builder switch writes is kept. A `yes_no` field, created required,
   * comes back not required.
   */
  lemma SaveDropsRequiredFlag(f: Field)
    ensures !LoadField(SaveField(f)).required
    ensures LoadField(SaveField(f)).validationRules == f.validationRules
    ensures LoadField(SaveField(f)).logic == f.logic && LoadField(SaveField(f)).id == f.id
  {
  }

  lemma YesNoLosesRequired(stamp: string)
    ensures NewField("yes_no", stamp).required
    ensures !LoadField(SaveField(NewField("yes_no", stamp))).required
  {
  }

  /** `publishForm`'s guard: an unsaved form (falsy `formId`) is rejected with this message. */
  function PublishGuard(formId: Value): (r: Option<string>)
    ensures r.Some? <==> !Truthy(formId)
    ensures r.Some? ==> r.value == "Form must be saved before publishing."
  {
    if Truthy(formId) then None else Some("Form must be saved before publishing.")
  }

  // ---------------------------------------------------------------------
  // The slice state

  /** The first loop of `moveFieldToScreen`: the first field with the id, scanning screens in order. */
  method FindField(screens: seq<Screen>, id: string) returns (found: Option<Field>)
    ensures found == FirstFieldWithId(screens, id)
  {
    var s := 0;
    while s < |screens|
      invariant 0 <= s <= |screens|
      invariant forall k :: 0 <= k < s ==> !HasField(screens[k].fields, id)
    {
      var j := IndexOfField(screens[s].fields, id);
      if j < |screens[s].fields| {
        assert ScreenWithField(screens, id) == s;
        return Some(screens[s].fields[j]);
      }
      s := s + 1;
    }
    return None;
  }

  /** The second loop of `moveFieldToScreen`: every screen's fields filtered. */
  method RemoveFromAll(screens: seq<Screen>, id: string) returns (ss: seq<Screen>)
    ensures ss == RemoveEverywhere(screens, id)
  {
    ss := screens;
    var s := 0;
    while s < |ss|
      invariant 0 <= s <= |ss| && |ss| == |screens|
      invariant forall k :: 0 <= k < s ==> ss[k] == screens[k].(fields := FilterOutId(screens[k].fields, id))
      invariant forall k :: s <= k < |ss| ==> ss[k] == screens[k]
    {
      ss := ss[s := ss[s].(fields := FilterOutId(ss[s].fields, id))];
      s := s + 1;
    }
  }

  /** The collision check of `updateFieldId`. */
  method AnyHasFieldScan(screens: seq<Screen>, id: string) returns (taken: bool)
    ensures taken == AnyHasField(screens, id)
  {
    taken := false;
    var s := 0;
    while s < |screens|
      invariant 0 <= s <= |screens|
      invariant taken <==> exists k :: 0 <= k < s && HasField(screens[k].fields, id)
    {
      if IndexOfField(screens[s].fields, id) < |screens[s].fields| {
        taken := true;
      }
      s := s + 1;
    }
  }

  /** Some screen among the first `s + 1` has the field exactly when one among the first `s` has it or screen `s` has it. */
  lemma AnyHasFieldSnoc(screens: seq<Screen>, s: nat, id: string)
    requires s < |screens|
    ensures AnyHasField(screens[..s + 1], id) <==> AnyHasField(screens[..s], id) || HasField(screens[s].fields, id)
  {
    assert screens[..s + 1][s] == screens[s];
    forall k | 0 <= k < s
      ensures screens[..s + 1][k] == screens[..s][k]
    {
    }
  }

  /** One screen of the rename loop: the first field with `oldId`, if any, takes `newId`; `hit` says whether there was one. */
  method RenameFirstField(sc: Screen, oldId: string, newId: string) returns (r: Screen, hit: bool)
    ensures r == RenameFirstIn(sc, oldId, newId)
    ensures hit == HasField(sc.fields, oldId)
  {
    var fs := sc.fields;
    var j := IndexOfField(fs, oldId);
    IndexFoundIffHasField(fs, oldId);
    r, hit := sc, false;
    if j < |fs| {
      r := sc.(fields := fs[j := fs[j].(id := newId)]);
      hit := true;
    }
  }

  /** The rename loop of `updateFieldId`; `found` says whether some screen held `oldId`. */
  method RenameInAll(screens: seq<Screen>, oldId: string, newId: string) returns (ss: seq<Screen>, found: bool)
    ensures |ss| == |screens|
    ensures forall k :: 0 <= k < |ss| ==> ss[k] == RenameFirstIn(screens[k], oldId, newId)
    ensures found == AnyHasField(screens, oldId)
  {
    assert screens[..|screens|] == screens;
    ss := screens;
    found := false;
    var s := 0;
    while s < |ss|
      invariant 0 <= s <= |ss| && |ss| == |screens|
      invariant forall k :: 0 <= k < |ss| ==> ss[k] == if k < s then RenameFirstIn(screens[k], oldId, newId) else screens[k]
      invariant found == AnyHasField(screens[..s], oldId)
    {
      AnyHasFieldSnoc(screens, s, oldId);
      var renamed, hit := RenameFirstField(ss[s], oldId, newId);
      ss := ss[s := renamed];
      if hit {
        found := true;
      }
      s := s + 1;
    }
  }

  /** The nested `forEach` of `updateFieldId` that rewrites every field's conditions. */
  method RetargetAll(screens: seq<Screen>, oldId: string, newId: string) returns (ss: seq<Screen>)
    ensures |ss| == |screens|
    ensures forall k :: 0 <= k < |ss| ==> ss[k] == RetargetScreen(screens[k], oldId, newId)
  {
    ss := screens;
    var s := 0;
    while s < |ss|
      invariant 0 <= s <= |ss| && |ss| == |screens|
      invariant forall k :: 0 <= k < s ==> ss[k] == RetargetScreen(screens[k], oldId, newId)
      invariant forall k :: s <= k < |ss| ==> ss[k] == screens[k]
    {
      var fs := ss[s].fields;
      var j := 0;
      while j < |fs|
        invariant 0 <= j <= |fs| && |fs| == |screens[s].fields|
        invariant forall k :: 0 <= k < j ==> fs[k] == RetargetField(screens[s].fields[k], oldId, newId)
        invariant forall k :: j <= k < |fs| ==> fs[k] == screens[s].fields[k]
      {
        fs := fs[j := RetargetField(fs[j], oldId, newId)];
        j := j + 1;
      }
      ss := ss[s := ss[s].(fields := fs)];
      s := s + 1;
    }
  }

  class Builder {
    var formId: Value
    var title: string
    var description: string
    var screens: seq<Screen>
    var selectedScreenId: string
    var selectedFieldId: Option<string>
    var saving: bool
    var error: Value
    var publishing: bool
    var published: bool
    var publishError: Value

    /** The builder always has a screen. */
    predicate Valid()
      reads this
    {
      |screens| >= 1
    }

    /** The five save and publish status fields, which only the thunks' reducers change. */
    function Status(): (bool, Value, bool, bool, Value)
      reads this
    {
      (saving, error, publishing, published, publishError)
    }

    /** `initialState` (and `resetBuilder`): one empty screen, selected. */
    constructor (stamp: string)
      ensures Valid()
      ensures screens == [Screen(GeneratedId("screen", stamp), "Screen 1", [])]
      ensures selectedScreenId == GeneratedId("screen", stamp) && selectedFieldId.None?
      ensures formId == Null && title == "Untitled Form" && description == ""
      ensures !saving && error == Null && !publishing && !published && publishError == Null
    {
      formId := Null;
      title := "Untitled Form";
      description := "";
      screens := [Screen(GeneratedId("screen", stamp), "Screen 1", [])];
      selectedScreenId := GeneratedId("screen", stamp);
      selectedFieldId := None;
      saving := false;
      error := Null;
      publishing := false;
      published := false;
      publishError := Null;
    }

    /** `setFormMetadata`: an absent (undefined) key leaves that attribute alone. */
    method SetFormMetadata(newTitle: Option<string>, newDescription: Option<string>)
      modifies this
      ensures title == (if newTitle.Some? then newTitle.value else old(title))
      ensures description == (if newDescription.Some? then newDescription.value else old(description))
      ensures screens == old(screens) && selectedScreenId == old(selectedScreenId) && selectedFieldId == old(selectedFieldId)
      ensures formId == old(formId) && Status() == old(Status())
    {
      if newTitle.Some? { title := newTitle.value; }
      if newDescription.Some? { description := newDescription.value; }
    }

    method AddScreen(stamp: string)
      requires Valid()
      modifies this
      ensures Valid()
      ensures screens == old(screens) + [NewScreen(|old(screens)|, stamp)]
      ensures selectedScreenId == NewScreen(|old(screens)|, stamp).id && selectedFieldId.None?
      ensures formId == old(formId) && title == old(title) && description == old(description)
      ensures Status() == old(Status())
    {
      var s := NewScreen(|screens|, stamp);
      screens := screens + [s];
      selectedScreenId := s.id;
      selectedFieldId := None;
    }

    method DeleteScreen(id: string)
      requires Valid()
      modifies this
      ensures Valid()
      ensures screens == DeleteScreenFrom(old(screens), id)
      ensures var i := IndexOfScreen(old(screens), id);
        if |old(screens)| <= 1 || i == |old(screens)| then
          selectedScreenId == old(selectedScreenId) && selectedFieldId == old(selectedFieldId)
        else
          selectedScreenId == SelectionAfterDelete(screens, i) && selectedFieldId.None?
      ensures formId == old(formId) && title == old(title) && description == old(description)
      ensures Status() == old(Status())
    {
      if |screens| <= 1 { return; }
      var i := IndexOfScreen(screens, id);
      if i < |screens| {
        screens := screens[..i] + screens[i + 1..];
        selectedScreenId := screens[if i > 0 then i - 1 else 0].id;
        selectedFieldId := None;
      }
    }

    method SelectScreen(id: string)
      modifies this
      ensures selectedScreenId == id && selectedFieldId.None? && screens == old(screens)
      ensures formId == old(formId) && title == old(title) && description == old(description)
      ensures Status() == old(Status())
    {
      selectedScreenId := id;
      selectedFieldId := None;
    }

    method UpdateScreenTitle(id: string, newTitle: string)
      requires Valid()
      modifies this
      ensures Valid()
      ensures var i := IndexOfScreen(old(screens), id);
        screens == if i < |old(screens)| then old(screens)[i := old(screens)[i].(title := newTitle)] else old(screens)
      ensures selectedScreenId == old(selectedScreenId) && selectedFieldId == old(selectedFieldId)
      ensures formId == old(formId) && title == old(title) && description == old(description)
      ensures Status() == old(Status())
    {
      var i := IndexOfScreen(screens, id);
      if i < |screens| {
        screens := screens[i := screens[i].(title := newTitle)];
      }
    }

    /** `addField(type)`: appended to the selected screen only; no selected screen, no change. */
    method AddField(ftype: string, stamp: string)
      requires Valid()
      modifies this
      ensures Valid()
      ensures var i := IndexOfScreen(old(screens), old(selectedScreenId));
        var f := NewField(ftype, stamp);
        if i == |old(screens)| then screens == old(screens) && selectedFieldId == old(selectedFieldId)
        else screens == old(screens)[i := old(screens)[i].(fields := old(screens)[i].fields + [f])] &&
             selectedFieldId == Some(f.id)
      ensures selectedScreenId == old(selectedScreenId)
      ensures formId == old(formId) && title == old(title) && description == old(description)
      ensures Status() == old(Status())
    {
      var i := IndexOfScreen(screens, selectedScreenId);
      if i == |screens| { return; }
      var f := NewField(ftype, stamp);
      screens := screens[i := screens[i].(fields := screens[i].fields + [f])];
      selectedFieldId := Some(f.id);
    }

    /** `removeField(id)`: filtered from the selected screen only. */
    method RemoveField(id: string)
      requires Valid()
      modifies this
      ensures Valid()
      ensures var i := IndexOfScreen(old(screens), old(selectedScreenId));
        if i == |old(screens)| then screens == old(screens) && selectedFieldId == old(selectedFieldId)
        else screens == old(screens)[i := old(screens)[i].(fields := FilterOutId(old(screens)[i].fields, id))] &&
             selectedFieldId == (if old(selectedFieldId) == Some(id) then None else old(selectedFieldId))
      ensures selectedScreenId == old(selectedScreenId)
      ensures formId == old(formId) && title == old(title) && description == old(description)
      ensures Status() == old(Status())
    {
      var i := IndexOfScreen(screens, selectedScreenId);
      if i == |screens| { return; }
      screens := screens[i := screens[i].(fields := FilterOutId(screens[i].fields, id))];
      if selectedFieldId == Some(id) {
        selectedFieldId := None;
      }
    }

    /** `updateField`: the `for...of` over screens stops at the first screen holding the id. */
    method UpdateField(id: string, p: FieldPatch)
      requires Valid()
      modifies this
      ensures Valid()
      ensures screens == PatchFirst(old(screens), id, p)
      ensures selectedScreenId == old(selectedScreenId) && selectedFieldId == old(selectedFieldId)
      ensures formId == old(formId) && title == old(title) && description == old(description)
      ensures Status() == old(Status())
    {
      var ss := screens;
      var s := 0;
      while s < |ss|
        invariant 0 <= s <= |ss|
        invariant forall k :: 0 <= k < s ==> !HasField(ss[k].fields, id)
      {
        var fs := ss[s].fields;
        var j := IndexOfField(fs, id);
        if j < |fs| {
          assert ScreenWithField(ss, id) == s;
          screens := ss[s := ss[s].(fields := fs[j := ApplyPatch(fs[j], p)])];
          return;
        }
        s := s + 1;
      }
    }

    /**
     * `updateFieldId`: after the collision checks, a loop renames the first
     * matching field of every screen, then a nested loop rewrites the
     * conditions of every field.
     */
    method UpdateFieldId(oldId: string, newId: string)
      requires Valid()
      modifies this
      ensures Valid()
      ensures screens == RenameFieldId(old(screens), oldId, newId)
      ensures selectedFieldId ==
        if oldId != newId && !AnyHasField(old(screens), newId) && AnyHasField(old(screens), oldId) &&
           old(selectedFieldId) == Some(oldId)
        then Some(newId) else old(selectedFieldId)
      ensures selectedScreenId == old(selectedScreenId)
      ensures formId == old(formId) && title == old(title) && description == old(description)
      ensures Status() == old(Status())
    {
      if oldId == newId { return; }
      var original := screens;
      var taken := AnyHasFieldScan(original, newId);
      if taken { return; }
      var renamed, found := RenameInAll(original, oldId, newId);
      screens := RetargetAll(renamed, oldId, newId);
      if found && selectedFieldId == Some(oldId) {
        selectedFieldId := Some(newId);
      }
    }

    /** `selectField(id)`: select it, and the first screen that holds it, if any. */
    method SelectField(id: Option<string>)
      requires Valid()
      modifies this
      ensures Valid() && screens == old(screens) && selectedFieldId == id
      ensures var s := if id.Some? then ScreenWithField(screens, id.value) else |screens|;
        selectedScreenId == if s < |screens| then screens[s].id else old(selectedScreenId)
      ensures formId == old(formId) && title == old(title) && description == old(description)
      ensures Status() == old(Status())
    {
      selectedFieldId := id;
      if id.None? { return; }
      var ss := screens;
      var s := 0;
      while s < |ss|
        invariant 0 <= s <= |ss|
        invariant forall k :: 0 <= k < s ==> !HasField(ss[k].fields, id.value)
      {
        if IndexOfField(ss[s].fields, id.value) < |ss[s].fields| {
          selectedScreenId := ss[s].id;
          return;
        }
        s := s + 1;
      }
    }

    /** `moveField` within the selected screen; a target index outside the list changes nothing. */
    method MoveField(from: nat, to: int)
      requires Valid()
      requires var i := IndexOfScreen(screens, selectedScreenId); i < |screens| ==> from < |screens[i].fields|
      modifies this
      ensures Valid()
      ensures var i := IndexOfScreen(old(screens), old(selectedScreenId));
        if i == |old(screens)| || to < 0 || to >= |old(screens)[i].fields| then screens == old(screens)
        else screens == old(screens)[i := old(screens)[i].(fields := MoveWithin(old(screens)[i].fields, from, to))]
      ensures selectedScreenId == old(selectedScreenId) && selectedFieldId == old(selectedFieldId)
      ensures formId == old(formId) && title == old(title) && description == old(description)
      ensures Status() == old(Status())
    {
      var i := IndexOfScreen(screens, selectedScreenId);
      if i == |screens| { return; }
      if to < 0 || to >= |screens[i].fields| { return; }
      screens := screens[i := screens[i].(fields := MoveWithin(screens[i].fields, from, to))];
    }

    /** `moveFieldToScreen`: find the field, drop it everywhere, append it to the target if that exists. */
    method MoveFieldToScreen(fieldId: string, target: string)
      requires Valid()
      modifies this
      ensures Valid()
      ensures screens == MoveToScreen(old(screens), fieldId, target)
      ensures selectedScreenId ==
        if AnyHasField(old(screens), fieldId) && IndexOfScreen(old(screens), target) < |old(screens)|
        then target else old(selectedScreenId)
      ensures selectedFieldId == old(selectedFieldId)
      ensures formId == old(formId) && title == old(title) && description == old(description)
      ensures Status() == old(Status())
    {
      var original := screens;
      var found := FindField(original, fieldId);
      if found.None? { return; }
      var ss := RemoveFromAll(original, fieldId);
      var t := IndexOfScreen(ss, target);
      assert IndexOfScreen(original, target) == t by {
        assert forall j :: 0 <= j < |ss| ==> ss[j].id == original[j].id;
      }
      if t < |ss| {
        ss := ss[t := ss[t].(fields := ss[t].fields + [found.value])];
        selectedScreenId := target;
      }
      screens := ss;
    }

    // Save and publish status transitions

    method SavePending()
      modifies this
      ensures saving && error == Null && !published && publishError == Null
      ensures screens == old(screens) && formId == old(formId) && publishing == old(publishing)
      ensures title == old(title) && description == old(description)
      ensures selectedScreenId == old(selectedScreenId) && selectedFieldId == old(selectedFieldId)
    {
      saving := true;
      error := Null;
      published := false;
      publishError := Null;
    }

    /** A fulfilled save adopts the returned id when it is truthy. */
    method SaveFulfilled(returnedId: Value)
      modifies this
      ensures !saving && formId == (if Truthy(returnedId) then returnedId else old(formId))
      ensures screens == old(screens) && error == old(error) && published == old(published)
      ensures title == old(title) && description == old(description)
      ensures selectedScreenId == old(selectedScreenId) && selectedFieldId == old(selectedFieldId)
      ensures publishing == old(publishing) && publishError == old(publishError)
    {
      saving := false;
      if Truthy(returnedId) {
        formId := returnedId;
      }
    }

    method SaveRejected(reason: Value)
      modifies this
      ensures !saving && error == reason && formId == old(formId) && screens == old(screens)
      ensures title == old(title) && description == old(description)
      ensures selectedScreenId == old(selectedScreenId) && selectedFieldId == old(selectedFieldId)
      ensures publishing == old(publishing) && published == old(published) && publishError == old(publishError)
    {
      saving := false;
      error := reason;
    }

    method PublishPending()
      modifies this
      ensures publishing && publishError == Null && !published
      ensures screens == old(screens) && formId == old(formId) && saving == old(saving)
      ensures title == old(title) && description == old(description)
      ensures selectedScreenId == old(selectedScreenId) && selectedFieldId == old(selectedFieldId)
      ensures error == old(error)
    {
      publishing := true;
      publishError := Null;
      published := false;
    }

    method PublishFulfilled()
      modifies this
      ensures !publishing && published && publishError == old(publishError) && screens == old(screens)
      ensures title == old(title) && description == old(description)
      ensures selectedScreenId == old(selectedScreenId) && selectedFieldId == old(selectedFieldId)
      ensures formId == old(formId) && saving == old(saving) && error == old(error)
    {
      publishing := false;
      published := true;
    }

    method PublishRejected(reason: Value)
      modifies this
      ensures !publishing && publishError == reason && published == old(published) && screens == old(screens)
      ensures title == old(title) && description == old(description)
      ensures selectedScreenId == old(selectedScreenId) && selectedFieldId == old(selectedFieldId)
      ensures formId == old(formId) && saving == old(saving) && error == old(error)
    {
      publishing := false;
      publishError := reason;
    }

    /** The request `saveForm` sends: an update of the saved form when it has an id, else a create. */
    method SaveRequest() returns (isUpdate: bool, payload: SavePayload)
      ensures isUpdate == Truthy(formId)
      ensures payload == SavePayloadOf(title, description, screens)
    {
      isUpdate := Truthy(formId);
      payload := SavePayloadOf(title, description, screens);
    }
  }
}
