/**
 * The read-only views of the builder state (src/store/selectors/formSelectors.js).
 * The memoisation of `createSelector` only changes when a view is
 * recomputed, never its value, so each selector is a plain function of the
 * screen list and the ids it reads.
 */
module FormSelectors {
  import opened Js
  import opened FormModel
  import opened FormBuilder

  // ---------------------------------------------------------------------
  // selectAllFields: the flattening keeps screen order

  /** A field sits in the flattened list after all the fields of the earlier screens. */
  lemma AllFieldsIndex(screens: seq<Screen>, s: nat, k: nat)
    requires s < |screens| && k < |screens[s].fields|
    ensures |AllFields(screens[..s])| + k < |AllFields(screens)|
    ensures AllFields(screens)[|AllFields(screens[..s])| + k] == screens[s].fields[k]
  {
    assert screens == screens[..s] + screens[s..];
    AllFieldsAppend(screens[..s], screens[s..]);
    assert AllFields(screens[s..]) == screens[s].fields + AllFields(screens[s + 1..]);
  }

  /** Every field of the flattened list comes from some screen at some position. */
  lemma AllFieldsOrigin(screens: seq<Screen>, i: nat)
    requires i < |AllFields(screens)|
    ensures exists s, k :: 0 <= s < |screens| && 0 <= k < |screens[s].fields| && AllFields(screens)[i] == screens[s].fields[k]
  {
    AllFieldsMember(screens, AllFields(screens)[i]);
    var s :| 0 <= s < |screens| && AllFields(screens)[i] in screens[s].fields;
    var k :| 0 <= k < |screens[s].fields| && screens[s].fields[k] == AllFields(screens)[i];
  }

  // ---------------------------------------------------------------------
  // selectFieldsByScreenId and selectCurrentScreen

  /** `screens.find(s => s.id === screenId)?.fields || []`. */
  function FieldsByScreenId(screens: seq<Screen>, screenId: string): (fs: seq<Field>)
    ensures forall i :: 0 <= i < |screens| && screens[i].id == screenId && (forall j :: 0 <= j < i ==> screens[j].id != screenId) ==>
              fs == screens[i].fields
    ensures (forall i :: 0 <= i < |screens| ==> screens[i].id != screenId) ==> fs == []
  {
    var i := IndexOfScreen(screens, screenId);
    if i < |screens| then screens[i].fields else []
  }

  /** `screens.find(s => s.id === selectedScreenId)`. */
  function CurrentScreen(screens: seq<Screen>, selectedScreenId: string): (sc: Option<Screen>)
    ensures sc.Some? ==> sc.value in screens && sc.value.id == selectedScreenId
    ensures sc.None? <==> forall i :: 0 <= i < |screens| ==> screens[i].id != selectedScreenId
  {
    var i := IndexOfScreen(screens, selectedScreenId);
    if i < |screens| then Some(screens[i]) else None
  }

  /** The current screen's fields are the fields the by-id view gives for the selected id. */
  lemma CurrentScreenFields(screens: seq<Screen>, selectedScreenId: string)
    ensures FieldsByScreenId(screens, selectedScreenId) ==
      match CurrentScreen(screens, selectedScreenId) case Some(sc) => sc.fields case None => []
  {
  }

  // ---------------------------------------------------------------------
  // selectSelectedField

  /**
   * `allFields.find(f => f.id === selectedFieldId) || null`, and `null` at
   * once for a falsy id (absent or `""`).
   */
  function SelectedField(screens: seq<Screen>, selectedFieldId: Option<string>): (r: Option<Field>)
    ensures (selectedFieldId.None? || selectedFieldId.value == "") ==> r.None?
    ensures r.Some? ==> r.value.id == selectedFieldId.value && r.value in AllFields(screens)
  {
    if selectedFieldId.None? || selectedFieldId.value == "" then None
    else
      var all := AllFields(screens);
      var i := IndexOfField(all, selectedFieldId.value);
      if i < |all| then Some(all[i]) else None
  }

  lemma IndexOfFieldFound(fs: seq<Field>, id: string)
    ensures IndexOfField(fs, id) < |fs| <==> HasField(fs, id)
  {
  }

  /** The first match in a concatenation is in the left part whenever the left part has one. */
  lemma {:induction false} IndexOfFieldAppend(a: seq<Field>, b: seq<Field>, id: string)
    ensures IndexOfField(a + b, id) == if HasField(a, id) then IndexOfField(a, id) else |a| + IndexOfField(b, id)
  {
    if a == [] {
      assert a + b == b;
    } else {
      assert (a + b)[1..] == a[1..] + b;
      IndexOfFieldAppend(a[1..], b, id);
      if a[0].id != id {
        if HasField(a, id) {
          var k :| 0 <= k < |a| && a[k].id == id;
          assert a[1..][k - 1].id == id;
        }
        if HasField(a[1..], id) {
          var k :| 0 <= k < |a| - 1 && a[1..][k].id == id;
          assert a[k + 1].id == id;
        }
      }
    }
  }

  /**
   * The first match in flattened order is the first match of the first
   * screen holding the id: the selector and the builder's screen-by-screen
   * search (`moveFieldToScreen`, the configuration panel) find the same field.
   */
  lemma {:induction false} SelectedFieldIsFirstMatch(screens: seq<Screen>, id: string)
    requires id != ""
    ensures SelectedField(screens, Some(id)) == FirstFieldWithId(screens, id)
  {
    if screens != [] {
      SelectedFieldIsFirstMatch(screens[1..], id);
      var fs := screens[0].fields;
      var rest := AllFields(screens[1..]);
      IndexOfFieldAppend(fs, rest, id);
      IndexOfFieldFound(fs, id);
      IndexOfFieldFound(rest, id);
      if !HasField(fs, id) {
        var i := IndexOfField(rest, id);
        if i < |rest| {
          assert (fs + rest)[|fs| + i] == rest[i];
        }
        assert ScreenWithField(screens, id) == 1 + ScreenWithField(screens[1..], id);
      }
    }
  }

  /** The selection view is empty exactly for a falsy id or an id no field carries. */
  lemma SelectedFieldNone(screens: seq<Screen>, selectedFieldId: Option<string>)
    ensures SelectedField(screens, selectedFieldId).None? <==>
      selectedFieldId.None? || selectedFieldId.value == "" || !AnyHasField(screens, selectedFieldId.value)
  {
    if selectedFieldId.Some? && selectedFieldId.value != "" {
      SelectedFieldIsFirstMatch(screens, selectedFieldId.value);
    }
  }

  // ---------------------------------------------------------------------
  // selectAvailableFieldsForLogic (also the logic editor's `availableFields`)

  /** `allFields.filter(f => f.id !== excludeFieldId)`. */
  function AvailableFields(screens: seq<Screen>, excludeFieldId: string): (fs: seq<Field>)
    ensures |fs| <= |AllFields(screens)|
  {
    FilterOutId(AllFields(screens), excludeFieldId)
  }

  /** The candidates are exactly the fields with another id: the edited field never depends on itself. */
  lemma AvailableFieldsMembers(screens: seq<Screen>, excludeFieldId: string, f: Field)
    ensures f in AvailableFields(screens, excludeFieldId) <==> f in AllFields(screens) && f.id != excludeFieldId
  {
    FilterOutIdMembers(AllFields(screens), excludeFieldId, f);
  }

  /** Order is kept: the candidates are the screens' own filtered lists, flattened in screen order. */
  lemma {:induction false} AvailableFieldsInScreenOrder(screens: seq<Screen>, excludeFieldId: string)
    ensures AvailableFields(screens, excludeFieldId) == AllFields(RemoveEverywhere(screens, excludeFieldId))
  {
    if screens != [] {
      AvailableFieldsInScreenOrder(screens[1..], excludeFieldId);
      FilterOutIdAppend(screens[0].fields, AllFields(screens[1..]), excludeFieldId);
      assert RemoveEverywhere(screens, excludeFieldId)[1..] == RemoveEverywhere(screens[1..], excludeFieldId);
    }
  }
}
