/**
 * The schema-driven form renderer (src/components/DynamicForm.jsx): the
 * screens it walks through, the id-to-field map used for visibility, the
 * validation of the current screen, the skipping navigation between screens
 * and the collection of the visible answers on submit.
 *
 * Regular-expression matching is an oracle `matches(pattern, text)`; the
 * current user and the preview flag are parameters of the submit step.
 */
module DynamicForm {
  import opened Js
  import opened FormModel
  import opened Visibility
  import Dict

  // ---------------------------------------------------------------------
  // Schema-derived structure

  /** `schema.screens || (schema.fields ? [{id:'default', title, fields}] : [])`. */
  function FormScreens(s: Schema): (screens: seq<Screen>)
    ensures s.screens.Some? ==> screens == s.screens.value
    ensures s.screens.None? && s.fields.Some? ==> screens == [Screen("default", s.title, s.fields.value)]
    ensures s.screens.None? && s.fields.None? ==> screens == []
  {
    if s.screens.Some? then s.screens.value
    else if s.fields.Some? then [Screen("default", s.title, s.fields.value)]
    else []
  }

  /** `fs.forEach(f => map[f.id] = f)` applied to `m`: a later field with the same id replaces an earlier one. */
  function StoreFields(m: FieldMap, fs: seq<Field>): (r: FieldMap)
    requires KeyedById(m)
    ensures KeyedById(r)
    ensures forall k :: k in r <==> k in m || exists i :: 0 <= i < |fs| && fs[i].id == k
    ensures forall i :: 0 <= i < |fs| && (forall j :: i < j < |fs| ==> fs[j].id != fs[i].id) ==> r[fs[i].id] == fs[i]
    ensures forall k :: k in m && (forall i :: 0 <= i < |fs| ==> fs[i].id != k) ==> r[k] == m[k]
    decreases |fs|
  {
    if fs == [] then m
    else
      var r := StoreFields(m[fs[0].id := fs[0]], fs[1..]);
      StoreFieldsStep(m, fs, r);
      r
  }

  /** One step of the `forEach`: what storing the first field and then the rest gives. */
  lemma StoreFieldsStep(m: FieldMap, fs: seq<Field>, r: FieldMap)
    requires fs != []
    requires var tail, m1 := fs[1..], m[fs[0].id := fs[0]];
      (forall k :: k in r <==> k in m1 || exists i :: 0 <= i < |tail| && tail[i].id == k) &&
      (forall i :: 0 <= i < |tail| && (forall j :: i < j < |tail| ==> tail[j].id != tail[i].id) ==> r[tail[i].id] == tail[i]) &&
      (forall k :: k in m1 && (forall i :: 0 <= i < |tail| ==> tail[i].id != k) ==> r[k] == m1[k])
    ensures forall k :: k in r <==> k in m || exists i :: 0 <= i < |fs| && fs[i].id == k
    ensures forall i :: 0 <= i < |fs| && (forall j :: i < j < |fs| ==> fs[j].id != fs[i].id) ==> r[fs[i].id] == fs[i]
    ensures forall k :: k in m && (forall i :: 0 <= i < |fs| ==> fs[i].id != k) ==> r[k] == m[k]
  {
    StoreStepKeys(m, fs, r);
    StoreStepLast(m, fs, r);
    StoreStepKept(m, fs, r);
  }

  lemma StoreStepKeys(m: FieldMap, fs: seq<Field>, r: FieldMap)
    requires fs != []
    requires forall k :: k in r <==> k in m[fs[0].id := fs[0]] || exists i :: 0 <= i < |fs[1..]| && fs[1..][i].id == k
    ensures forall k :: k in r <==> k in m || exists i :: 0 <= i < |fs| && fs[i].id == k
  {
    var tail := fs[1..];
    forall k
      ensures k in r <==> k in m || exists i :: 0 <= i < |fs| && fs[i].id == k
    {
      if exists i :: 0 <= i < |tail| && tail[i].id == k {
        var i :| 0 <= i < |tail| && tail[i].id == k;
        assert fs[i + 1] == tail[i];
      }
      if exists i :: 0 <= i < |fs| && fs[i].id == k {
        var i :| 0 <= i < |fs| && fs[i].id == k;
        if i > 0 {
          assert tail[i - 1] == fs[i];
        }
      }
    }
  }

  lemma StoreStepLast(m: FieldMap, fs: seq<Field>, r: FieldMap)
    requires fs != []
    requires forall k :: k in m[fs[0].id := fs[0]] ==> k in r
    requires forall i :: 0 <= i < |fs[1..]| ==> fs[1..][i].id in r
    requires var tail, m1 := fs[1..], m[fs[0].id := fs[0]];
      (forall i :: 0 <= i < |tail| && (forall j :: i < j < |tail| ==> tail[j].id != tail[i].id) ==> r[tail[i].id] == tail[i]) &&
      (forall k :: k in m1 && (forall i :: 0 <= i < |tail| ==> tail[i].id != k) ==> r[k] == m1[k])
    ensures forall i :: 0 <= i < |fs| && (forall j :: i < j < |fs| ==> fs[j].id != fs[i].id) ==> r[fs[i].id] == fs[i]
  {
    forall i | 0 <= i < |fs|
      ensures fs[i].id in r
    {
      if i > 0 {
        assert fs[1..][i - 1] == fs[i];
      }
    }
    forall i | 0 <= i < |fs| && (forall j :: i < j < |fs| ==> fs[j].id != fs[i].id)
      ensures r[fs[i].id] == fs[i]
    {
      if i == 0 {
        StoreLastHead(m, fs, r);
      } else {
        StoreLastTail(fs, r, i);
      }
    }
  }

  /** The first field is the one stored under its id when no later field shares it. */
  lemma StoreLastHead(m: FieldMap, fs: seq<Field>, r: FieldMap)
    requires fs != []
    requires forall k :: k in m[fs[0].id := fs[0]] ==> k in r
    requires var tail, m1 := fs[1..], m[fs[0].id := fs[0]];
      forall k :: k in m1 && (forall i :: 0 <= i < |tail| ==> tail[i].id != k) ==> r[k] == m1[k]
    requires forall j :: 0 < j < |fs| ==> fs[j].id != fs[0].id
    ensures r[fs[0].id] == fs[0]
  {
    var tail := fs[1..];
    forall t | 0 <= t < |tail|
      ensures tail[t].id != fs[0].id
    {
      assert tail[t] == fs[t + 1];
    }
  }

  /** A later field is the one stored under its id when no field after it shares it. */
  lemma StoreLastTail(fs: seq<Field>, r: FieldMap, i: nat)
    requires 0 < i < |fs|
    requires forall t :: 0 <= t < |fs[1..]| ==> fs[1..][t].id in r
    requires var tail := fs[1..];
      forall t :: 0 <= t < |tail| && (forall j :: t < j < |tail| ==> tail[j].id != tail[t].id) ==> r[tail[t].id] == tail[t]
    requires forall j :: i < j < |fs| ==> fs[j].id != fs[i].id
    ensures r[fs[i].id] == fs[i]
  {
    var tail := fs[1..];
    assert tail[i - 1] == fs[i];
    forall j | i - 1 < j < |tail|
      ensures tail[j].id != tail[i - 1].id
    {
      assert tail[j] == fs[j + 1];
    }
  }

  lemma StoreStepKept(m: FieldMap, fs: seq<Field>, r: FieldMap)
    requires fs != []
    requires forall k :: k in m[fs[0].id := fs[0]] ==> k in r
    requires var tail, m1 := fs[1..], m[fs[0].id := fs[0]];
      forall k :: k in m1 && (forall i :: 0 <= i < |tail| ==> tail[i].id != k) ==> r[k] == m1[k]
    ensures forall k :: k in m && (forall i :: 0 <= i < |fs| ==> fs[i].id != k) ==> r[k] == m[k]
  {
    var tail := fs[1..];
    forall k | k in m && (forall i :: 0 <= i < |fs| ==> fs[i].id != k)
      ensures r[k] == m[k]
    {
      assert fs[0].id != k;
      forall t | 0 <= t < |tail|
        ensures tail[t].id != k
      {
        assert tail[t] == fs[t + 1];
      }
    }
  }

  /** `allFieldsMap`: the top-level `fields` first, then every screen's fields in order. */
  function AllFieldsMap(s: Schema): (fm: FieldMap)
    ensures KeyedById(fm)
  {
    var top := if s.fields.Some? then s.fields.value else [];
    var scr := if s.screens.Some? then s.screens.value else [];
    StoreFields(StoreFields(map[], top), AllFields(scr))
  }

  /** Every field of a screen-based schema is reachable by its id, and the last field with an id wins. */
  lemma AllFieldsMapLastWins(s: Schema, i: nat)
    requires s.screens.Some? && i < |AllFields(s.screens.value)|
    requires var fs := AllFields(s.screens.value); forall j :: i < j < |fs| ==> fs[j].id != fs[i].id
    ensures var fs := AllFields(s.screens.value); fs[i].id in AllFieldsMap(s) && AllFieldsMap(s)[fs[i].id] == fs[i]
  {
  }

  /** Every key of the map is the id of some field of the schema. */
  lemma AllFieldsMapKeys(s: Schema, k: string)
    ensures k in AllFieldsMap(s) <==>
      (s.fields.Some? && exists i :: 0 <= i < |s.fields.value| && s.fields.value[i].id == k) ||
      (s.screens.Some? && exists i :: 0 <= i < |AllFields(s.screens.value)| && AllFields(s.screens.value)[i].id == k)
  {
    var top := if s.fields.Some? then s.fields.value else [];
    var scr := if s.screens.Some? then s.screens.value else [];
    var m1 := StoreFields(map[], top);
    assert k in m1 <==> exists i :: 0 <= i < |top| && top[i].id == k;
    assert AllFieldsMap(s) == StoreFields(m1, AllFields(scr));
    if s.screens.None? {
      assert AllFields(scr) == [];
    }
  }

  /** The fields of the screen at `index`, or none when there is no such screen (`currentScreen?.fields || []`). */
  function FieldsAt(screens: seq<Screen>, index: nat): (fs: seq<Field>)
    ensures index >= |screens| ==> fs == []
  {
    if index < |screens| then screens[index].fields else []
  }

  /** `screen.fields.some(f => evaluateFieldVisibility(f, responses, allFieldsMap))`. */
  predicate HasVisibleField(s: Screen, r: Responses, fm: FieldMap)
    requires KeyedById(fm)
  {
    exists i :: 0 <= i < |s.fields| && IsVisible(s.fields[i], r, fm)
  }

  // ---------------------------------------------------------------------
  // Validation of one field and of one screen

  /** The required test: undefined, null, `''` or an empty array. */
  predicate IsEmptyAnswer(v: Value)
  {
    v.Undefined? || v.Null? || v == Str("") || (v.Arr? && |v.items| == 0)
  }

  /**
   * A visible field with a truthy answer that passes the required test and
   * carries a `validation` object: the format and range checks apply to it.
   */
  predicate ReachesValidation(f: Field, r: Responses, fm: FieldMap)
    requires KeyedById(fm)
  {
    var value := Lookup(r, f.id);
    IsVisible(f, r, fm) && !(f.required && IsEmptyAnswer(value)) && Truthy(value) && f.validation.Some?
  }

  /** The message recorded for one field of the screen, or `None` when it passes. */
  function FieldError(f: Field, r: Responses, fm: FieldMap, matches: (string, string) -> bool): (e: Option<string>)
    requires KeyedById(fm)
    ensures !IsVisible(f, r, fm) ==> e.None?
    ensures IsVisible(f, r, fm) && f.required && IsEmptyAnswer(Lookup(r, f.id)) ==> e == Some(f.caption + " is required")
    ensures !f.required && !Truthy(Lookup(r, f.id)) ==> e.None?
    ensures f.validation.None? ==> e.None? || e == Some(f.caption + " is required")
    ensures ReachesValidation(f, r, fm) ==>
      var v, n := f.validation.value, ToNumber(Lookup(r, f.id));
      var tooLarge := f.ftype == "number" && v.max.Some? && n.Some? && n.value > v.max.value;
      var tooSmall := f.ftype == "number" && v.min.Some? && n.Some? && n.value < v.min.value;
      var badFormat := v.regex != "" && !matches(v.regex, ToStr(Lookup(r, f.id)));
      (tooLarge ==> e == Some(f.caption + " must be at most " + IntToString(v.max.value))) &&
      (!tooLarge && tooSmall ==> e == Some(f.caption + " must be at least " + IntToString(v.min.value))) &&
      (!tooLarge && !tooSmall && badFormat ==> e == Some(OrStr(v.errorMessage, "Invalid format for " + f.caption))) &&
      (!tooLarge && !tooSmall && !badFormat ==> e.None?)
  {
    var value := Lookup(r, f.id);
    if !IsVisible(f, r, fm) then None
    else if f.required && IsEmptyAnswer(value) then Some(f.caption + " is required")
    else if !Truthy(value) then None
    else if f.validation.None? then None
    else
      var v := f.validation.value;
      var regexError :=
        if v.regex != "" && !matches(v.regex, ToStr(value))
        then Some(OrStr(v.errorMessage, "Invalid format for " + f.caption))
        else None;
      var number := ToNumber(value);
      var tooSmall := f.ftype == "number" && v.min.Some? && number.Some? && number.value < v.min.value;
      var tooLarge := f.ftype == "number" && v.max.Some? && number.Some? && number.value > v.max.value;
      if tooLarge then Some(f.caption + " must be at most " + IntToString(v.max.value))
      else if tooSmall then Some(f.caption + " must be at least " + IntToString(v.min.value))
      else regexError
  }

  /** The `newErrors` object built by `validateScreen` over the fields `fs`, in order. */
  function ScreenErrors(fs: seq<Field>, r: Responses, fm: FieldMap, matches: (string, string) -> bool): Dict.Dict<string>
    requires KeyedById(fm)
    decreases |fs|
  {
    if fs == [] then Dict.Empty()
    else
      var last := fs[|fs| - 1];
      var before := ScreenErrors(fs[..|fs| - 1], r, fm, matches);
      match FieldError(last, r, fm, matches)
      case None => before
      case Some(m) => Dict.Put(before, last.id, m)
  }

  lemma PutHasKey<V>(d: Dict.Dict<V>, k: string, v: V, k': string)
    ensures Dict.HasKey(Dict.Put(d, k, v), k') <==> k' == k || Dict.HasKey(d, k')
  {
    Dict.PutGet(d, k, v, k');
  }

  /** A field id carries an error exactly when some field with that id fails its checks. */
  lemma {:induction false} ScreenErrorsKeys(fs: seq<Field>, r: Responses, fm: FieldMap, matches: (string, string) -> bool, k: string)
    requires KeyedById(fm)
    ensures Dict.HasKey(ScreenErrors(fs, r, fm, matches), k) <==>
      exists i :: 0 <= i < |fs| && fs[i].id == k && FieldError(fs[i], r, fm, matches).Some?
    decreases |fs|
  {
    if fs != [] {
      var init := fs[..|fs| - 1];
      var last := fs[|fs| - 1];
      ScreenErrorsKeys(init, r, fm, matches, k);
      assert forall i :: 0 <= i < |init| ==> init[i] == fs[i];
      if FieldError(last, r, fm, matches).Some? {
        PutHasKey(ScreenErrors(init, r, fm, matches), last.id, FieldError(last, r, fm, matches).value, k);
      }
    }
  }

  /** `validateScreen()` returns true iff no visible field of the screen fails; hidden fields never fail it. */
  lemma ScreenValidIff(fs: seq<Field>, r: Responses, fm: FieldMap, matches: (string, string) -> bool)
    requires KeyedById(fm)
    ensures |ScreenErrors(fs, r, fm, matches).entries| == 0 <==>
      forall i :: 0 <= i < |fs| ==> FieldError(fs[i], r, fm, matches).None?
  {
    var errs := ScreenErrors(fs, r, fm, matches);
    if |errs.entries| == 0 {
      forall i | 0 <= i < |fs|
        ensures FieldError(fs[i], r, fm, matches).None?
      {
        ScreenErrorsKeys(fs, r, fm, matches, fs[i].id);
      }
    } else {
      ScreenErrorsKeys(fs, r, fm, matches, errs.entries[0].0);
    }
  }

  // ---------------------------------------------------------------------
  // Navigation between screens

  /** The screen passes exactly when no field of it has an error, stated over the fields themselves. */
  lemma ScreenValidMembers(fs: seq<Field>, r: Responses, fm: FieldMap, matches: (string, string) -> bool)
    requires KeyedById(fm)
    ensures |ScreenErrors(fs, r, fm, matches).entries| == 0 <==>
      forall f :: f in fs ==> FieldError(f, r, fm, matches).None?
  {
    ScreenValidIff(fs, r, fm, matches);
    if |ScreenErrors(fs, r, fm, matches).entries| == 0 {
      forall f | f in fs
        ensures FieldError(f, r, fm, matches).None?
      {
        var i :| 0 <= i < |fs| && fs[i] == f;
      }
    }
  }

  /** Checking one more field records its error, if it has one. */
  lemma ScreenErrorsStep(done: seq<Field>, f: Field, r: Responses, fm: FieldMap, matches: (string, string) -> bool)
    requires KeyedById(fm)
    ensures var e := FieldError(f, r, fm, matches);
      ScreenErrors(done + [f], r, fm, matches) ==
      if e.Some? then Dict.Put(ScreenErrors(done, r, fm, matches), f.id, e.value) else ScreenErrors(done, r, fm, matches)
  {
    assert (done + [f])[..|done|] == done;
  }

  /** The `forEach` of `validateScreen` over the current screen's fields. */
  method CheckFields(fs: seq<Field>, r: Responses, fm: FieldMap, matches: (string, string) -> bool)
    returns (errs: Dict.Dict<string>)
    requires KeyedById(fm)
    ensures errs == ScreenErrors(fs, r, fm, matches)
  {
    errs := Dict.Empty();
    var i := 0;
    while i < |fs|
      invariant 0 <= i <= |fs|
      invariant errs == ScreenErrors(fs[..i], r, fm, matches)
    {
      ScreenErrorsStep(fs[..i], fs[i], r, fm, matches);
      assert fs[..i + 1] == fs[..i] + [fs[i]];
      var e := FieldError(fs[i], r, fm, matches);
      if e.Some? {
        errs := Dict.Put(errs, fs[i].id, e.value);
      }
      i := i + 1;
    }
    assert fs[..|fs|] == fs;
  }

  /** The smallest index `>= k` whose screen shows a field, or a value `>= |screens|` when there is none. */
  function NextVisibleFrom(screens: seq<Screen>, k: nat, r: Responses, fm: FieldMap): (n: nat)
    requires KeyedById(fm)
    ensures k <= n
    ensures n < |screens| ==> HasVisibleField(screens[n], r, fm)
    ensures forall j :: k <= j < n && j < |screens| ==> !HasVisibleField(screens[j], r, fm)
    ensures k <= |screens| ==> n <= |screens|
    decreases |screens| - k
  {
    if k >= |screens| then k
    else if HasVisibleField(screens[k], r, fm) then k
    else NextVisibleFrom(screens, k + 1, r, fm)
  }

  /** The forward scan of `handleNext`, from screen `k` on. */
  method FindNextScreen(screens: seq<Screen>, k: nat, r: Responses, fm: FieldMap) returns (n: nat)
    requires KeyedById(fm)
    ensures n == NextVisibleFrom(screens, k, r, fm)
  {
    n := k;
    while n < |screens|
      invariant k <= n
      invariant NextVisibleFrom(screens, n, r, fm) == NextVisibleFrom(screens, k, r, fm)
      decreases |screens| - n
    {
      if HasVisibleField(screens[n], r, fm) {
        break;
      }
      n := n + 1;
    }
  }

  /** The largest index `<= k` whose screen shows a field, or -1 when there is none. */
  function PrevVisibleFrom(screens: seq<Screen>, k: int, r: Responses, fm: FieldMap): (p: int)
    requires KeyedById(fm) && -1 <= k < |screens|
    ensures -1 <= p <= k
    ensures p >= 0 ==> HasVisibleField(screens[p], r, fm)
    ensures forall j :: p < j <= k && 0 <= j ==> !HasVisibleField(screens[j], r, fm)
    decreases k + 1
  {
    if k < 0 then -1
    else if HasVisibleField(screens[k], r, fm) then k
    else PrevVisibleFrom(screens, k - 1, r, fm)
  }

  // ---------------------------------------------------------------------
  // Collected answers

  /** `visibleResponses` after visiting the fields `fs` in order. */
  function CollectVisible(fs: seq<Field>, r: Responses, fm: FieldMap): Dict.Dict<Value>
    requires KeyedById(fm)
    decreases |fs|
  {
    if fs == [] then Dict.Empty()
    else
      var last := fs[|fs| - 1];
      var before := CollectVisible(fs[..|fs| - 1], r, fm);
      if IsVisible(last, r, fm) then Dict.Put(before, last.id, Lookup(r, last.id)) else before
  }

  /** Visiting one more field adds its answer when it is visible. */
  lemma CollectStep(done: seq<Field>, f: Field, r: Responses, fm: FieldMap)
    requires KeyedById(fm)
    ensures CollectVisible(done + [f], r, fm) ==
      if IsVisible(f, r, fm) then Dict.Put(CollectVisible(done, r, fm), f.id, Lookup(r, f.id)) else CollectVisible(done, r, fm)
  {
    assert (done + [f])[..|done|] == done;
  }

  /** The fields of the first `s + 1` screens are those of the first `s` followed by screen `s`'s. */
  lemma AllFieldsSnoc(screens: seq<Screen>, s: nat)
    requires s < |screens|
    ensures AllFields(screens[..s + 1]) == AllFields(screens[..s]) + screens[s].fields
  {
    AllFieldsAppend(screens[..s], [screens[s]]);
    assert screens[..s + 1] == screens[..s] + [screens[s]];
    assert [screens[s]][1..] == [];
    assert screens[s].fields + [] == screens[s].fields;
  }

  /** The inner `forEach` of `handleSubmit` over one screen's fields. */
  method CollectScreen(collected: Dict.Dict<Value>, done: seq<Field>, fs: seq<Field>, r: Responses, fm: FieldMap)
    returns (out: Dict.Dict<Value>)
    requires KeyedById(fm)
    requires collected == CollectVisible(done, r, fm)
    ensures out == CollectVisible(done + fs, r, fm)
  {
    out := collected;
    var j := 0;
    assert done + fs[..0] == done;
    while j < |fs|
      invariant 0 <= j <= |fs|
      invariant out == CollectVisible(done + fs[..j], r, fm)
    {
      CollectStep(done + fs[..j], fs[j], r, fm);
      assert done + fs[..j + 1] == (done + fs[..j]) + [fs[j]];
      if IsVisible(fs[j], r, fm) {
        out := Dict.Put(out, fs[j].id, Lookup(r, fs[j].id));
      }
      j := j + 1;
    }
    assert fs[..|fs|] == fs;
  }

  /**
   * The submitted answers have exactly the ids of the visible fields, and
   * each maps to the value stored for it.
   */
  lemma {:induction false} CollectVisibleGet(fs: seq<Field>, r: Responses, fm: FieldMap, k: string)
    requires KeyedById(fm)
    ensures Dict.Get(CollectVisible(fs, r, fm), k) ==
      if exists i :: 0 <= i < |fs| && fs[i].id == k && IsVisible(fs[i], r, fm) then Some(Lookup(r, k)) else None
    decreases |fs|
  {
    if fs != [] {
      var init := fs[..|fs| - 1];
      var last := fs[|fs| - 1];
      CollectVisibleGet(init, r, fm, k);
      assert forall i :: 0 <= i < |init| ==> init[i] == fs[i];
      if IsVisible(last, r, fm) {
        Dict.PutGet(CollectVisible(init, r, fm), last.id, Lookup(r, last.id), k);
      }
    }
  }

  /** The user as the auth state holds it: each of `id`, `phone`, `email` may be absent. */
  datatype User = User(id: Value, phone: Value, email: Value)

  /** The `submitFormResponse` argument: `{formId: Number(schema.id), data: {user_id, responses}}`. */
  datatype Submission = Submission(formId: Option<int>, userId: string, responses: Dict.Dict<Value>)

  /** `String(user?.id || user?.phone || user?.email || 'anonymous_user')`. */
  function SubmitterId(user: Option<User>): (id: string)
    ensures user.None? ==> id == "anonymous_user"
    ensures user.Some? && Truthy(user.value.id) ==> id == ToStr(user.value.id)
    ensures user.Some? && !Truthy(user.value.id) && !Truthy(user.value.phone) && !Truthy(user.value.email) ==>
              id == "anonymous_user"
  {
    if user.None? then "anonymous_user"
    else ToStr(Or(user.value.id, Or(user.value.phone, Or(user.value.email, Str("anonymous_user")))))
  }

  // ---------------------------------------------------------------------
  // The renderer's state

  class FormRenderer {
    const schemaId: Value
    const screens: seq<Screen>
    const fieldMap: FieldMap
    const matches: (string, string) -> bool
    var responses: Responses
    var errors: Dict.Dict<string>
    var current: nat
    var previewComplete: bool

    /** A fresh renderer: no answers, no errors, first screen. */
    constructor (schema: Schema, id: Value, matches: (string, string) -> bool)
      ensures screens == FormScreens(schema) && fieldMap == AllFieldsMap(schema)
      ensures this.schemaId == id && this.matches == matches
      ensures responses == map[] && errors == Dict.Empty() && current == 0 && !previewComplete
    {
      schemaId := id;
      screens := FormScreens(schema);
      fieldMap := AllFieldsMap(schema);
      this.matches := matches;
      responses := map[];
      errors := Dict.Empty();
      current := 0;
      previewComplete := false;
    }

    /** `handleFieldChange` in preview mode: `{...prev, [fieldName]: value}`. */
    method SetResponse(fieldName: string, value: Value)
      modifies this
      ensures responses == old(responses)[fieldName := value]
      ensures errors == old(errors) && current == old(current) && previewComplete == old(previewComplete)
    {
      responses := responses[fieldName := value];
    }

    /** `hasNextVisibleScreen`: some later screen shows at least one field. */
    method HasNextVisibleScreen() returns (b: bool)
      requires KeyedById(fieldMap)
      ensures b <==> exists j :: current < j < |screens| && HasVisibleField(screens[j], responses, fieldMap)
    {
      var next := current + 1;
      while next < |screens|
        invariant current + 1 <= next
        invariant forall j :: current < j < next && j < |screens| ==> !HasVisibleField(screens[j], responses, fieldMap)
        decreases |screens| - next
      {
        if HasVisibleField(screens[next], responses, fieldMap) {
          return true;
        }
        next := next + 1;
      }
      return false;
    }

    /** `validateScreen()`: records the errors of the current screen and reports whether there are none. */
    method ValidateScreen() returns (ok: bool)
      requires KeyedById(fieldMap)
      modifies this
      ensures errors == ScreenErrors(FieldsAt(screens, current), responses, fieldMap, matches)
      ensures ok <==> forall f :: f in FieldsAt(screens, current) ==> FieldError(f, responses, fieldMap, matches).None?
      ensures ok <==> |errors.entries| == 0
      ensures responses == old(responses) && current == old(current) && previewComplete == old(previewComplete)
    {
      var fs := FieldsAt(screens, current);
      errors := CheckFields(fs, responses, fieldMap, matches);
      ok := |errors.entries| == 0;
      ScreenValidMembers(fs, responses, fieldMap, matches);
    }

    /** `handleNext`: validate, then move to the next screen that shows a field, if any. */
    method Next()
      requires KeyedById(fieldMap)
      modifies this
      ensures errors == ScreenErrors(FieldsAt(screens, old(current)), responses, fieldMap, matches)
      ensures responses == old(responses) && previewComplete == old(previewComplete)
      ensures var n := NextVisibleFrom(screens, old(current) + 1, responses, fieldMap);
        current == if |errors.entries| == 0 && n < |screens| then n else old(current)
    {
      var ok := ValidateScreen();
      if ok {
        var next := FindNextScreen(screens, current + 1, responses, fieldMap);
        if next < |screens| {
          current := next;
        }
      }
    }

    /** `handleBack`: move, without validating, to the previous screen that shows a field, if any. */
    method Back()
      requires KeyedById(fieldMap) && current <= |screens|
      modifies this
      ensures responses == old(responses) && errors == old(errors) && previewComplete == old(previewComplete)
      ensures var p := PrevVisibleFrom(screens, old(current) - 1, responses, fieldMap);
        current == if p >= 0 then p else old(current)
    {
      var prev: int := current - 1;
      while prev >= 0
        invariant -1 <= prev <= current - 1
        invariant PrevVisibleFrom(screens, prev, responses, fieldMap) == PrevVisibleFrom(screens, current - 1, responses, fieldMap)
        decreases prev + 1
      {
        if HasVisibleField(screens[prev], responses, fieldMap) {
          break;
        }
        prev := prev - 1;
      }
      if prev >= 0 {
        current := prev;
      }
    }

    /** The visible answers over all screens, gathered screen by screen and field by field. */
    method CollectResponses() returns (collected: Dict.Dict<Value>)
      requires KeyedById(fieldMap)
      ensures collected == CollectVisible(AllFields(screens), responses, fieldMap)
    {
      collected := Dict.Empty();
      var s := 0;
      while s < |screens|
        invariant 0 <= s <= |screens|
        invariant collected == CollectVisible(AllFields(screens[..s]), responses, fieldMap)
      {
        collected := CollectScreen(collected, AllFields(screens[..s]), screens[s].fields, responses, fieldMap);
        AllFieldsSnoc(screens, s);
        s := s + 1;
      }
      assert screens[..|screens|] == screens;
    }

    /**
     * `handleSubmit`: when the current screen validates, collect the visible
     * answers; in preview mode only mark the preview complete, otherwise
     * return the submission to dispatch.
     */
    method Submit(user: Option<User>, isPreview: bool) returns (sent: Option<Submission>)
      requires KeyedById(fieldMap)
      modifies this
      ensures errors == ScreenErrors(FieldsAt(screens, current), responses, fieldMap, matches)
      ensures responses == old(responses) && current == old(current)
      ensures var ok := |errors.entries| == 0;
        sent == if ok && !isPreview
          then Some(Submission(ToNumber(schemaId), SubmitterId(user), CollectVisible(AllFields(screens), responses, fieldMap)))
          else None
      ensures previewComplete == (old(previewComplete) || (|errors.entries| == 0 && isPreview))
    {
      var ok := ValidateScreen();
      ScreenValidIff(FieldsAt(screens, current), responses, fieldMap, matches);
      if !ok {
        assert exists i :: 0 <= i < |FieldsAt(screens, current)| && FieldError(FieldsAt(screens, current)[i], responses, fieldMap, matches).Some?;
        return None;
      }
      var visibleResponses := CollectResponses();
      if isPreview {
        previewComplete := true;
        return None;
      }
      sent := Some(Submission(ToNumber(schemaId), SubmitterId(user), visibleResponses));
    }
  }
}
