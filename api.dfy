/**
 * The API client (src/services/api.js) without the network: the request
 * headers of the two backends, the data backend's URL, how a response
 * becomes a value or an error, the query parameters of the list calls, and
 * the two normalisers of the menu configuration. The stored token, the
 * current location and every response are parameters.
 */
module Api {
  import opened Js
  import Dict
  import opened Layout

  // ---------------------------------------------------------------------
  // Headers

  /** `if (token)`: a stored, non-empty token. */
  predicate HasToken(token: Option<string>)
  {
    token.Some? && token.value != ""
  }

  /** `getHeaders(customHeaders)`: JSON content type, the custom headers over it, then the bearer token. */
  function GetHeaders(custom: Dict.Dict<string>, token: Option<string>): Dict.Dict<string>
  {
    var base := Dict.Assign(Dict.Dict([("Content-Type", "application/json")]), custom);
    if HasToken(token) then Dict.Put(base, "Authorization", "Bearer " + token.value) else base
  }

  /**
   * The bearer token wins over any custom `Authorization`, a custom header
   * wins over the JSON content type, and nothing else is added.
   */
  lemma GetHeadersGet(custom: Dict.Dict<string>, token: Option<string>, k: string)
    requires Dict.WellFormed(custom)
    ensures Dict.Get(GetHeaders(custom, token), k) ==
      if k == "Authorization" && HasToken(token) then Some("Bearer " + token.value)
      else if Dict.HasKey(custom, k) then Dict.Get(custom, k)
      else if k == "Content-Type" then Some("application/json")
      else None
  {
    var base := Dict.Assign(Dict.Dict([("Content-Type", "application/json")]), custom);
    Dict.AssignGet(Dict.Dict([("Content-Type", "application/json")]), custom, k);
    if HasToken(token) {
      Dict.PutGet(base, "Authorization", "Bearer " + token.value, k);
    }
  }

  /** The headers `fetchApi` sends: the computed headers, then the call's own headers over them. */
  function ApiHeaders(optionHeaders: Option<Dict.Dict<string>>, token: Option<string>): Dict.Dict<string>
  {
    Dict.Assign(GetHeaders(Dict.Empty(), token), if optionHeaders.Some? then optionHeaders.value else Dict.Empty())
  }

  /**
   * The headers `fetchDataApi` sends. The call's options are spread after
   * the computed `headers`, so a call that passes its own `headers` sends
   * exactly those.
   */
  function DataApiHeaders(optionHeaders: Option<Dict.Dict<string>>, token: Option<string>): Dict.Dict<string>
  {
    if optionHeaders.Some? then optionHeaders.value else GetHeaders(Dict.Empty(), token)
  }

  /** Without headers of its own, a call to either backend carries the JSON type and the bearer token. */
  lemma DefaultHeadersCarryToken(token: Option<string>)
    requires HasToken(token)
    ensures Dict.Get(ApiHeaders(None, token), "Authorization") == Some("Bearer " + token.value)
    ensures Dict.Get(DataApiHeaders(None, token), "Authorization") == Some("Bearer " + token.value)
    ensures Dict.Get(DataApiHeaders(None, token), "Content-Type") == Some("application/json")
  {
    GetHeadersGet(Dict.Empty(), token, "Authorization");
    GetHeadersGet(Dict.Empty(), token, "Content-Type");
    Dict.AssignGet(GetHeaders(Dict.Empty(), token), Dict.Empty(), "Authorization");
  }

  /**
   * The form-data calls (creating a contact, changing its status, the bulk
   * import, creating a list) pass `headers: {}`: the data backend then gets
   * no `Authorization` header at all, while the same option on the other
   * backend keeps the token.
   */
  lemma EmptyHeadersDropAuthorization(token: Option<string>)
    ensures Dict.Get(DataApiHeaders(Some(Dict.Empty()), token), "Authorization").None?
    ensures HasToken(token) ==>
              Dict.Get(ApiHeaders(Some(Dict.Empty()), token), "Authorization") == Some("Bearer " + token.value)
  {
    GetHeadersGet(Dict.Empty(), token, "Authorization");
    Dict.AssignGet(GetHeaders(Dict.Empty(), token), Dict.Empty(), "Authorization");
  }

  // ---------------------------------------------------------------------
  // The data backend's URL

  /** `${baseUrl}${cleanEndpoint}`: trailing slashes off the base, one leading slash on the endpoint. */
  function DataUrl(base: Option<string>, endpoint: string): string
  {
    var b := DropTrailing(if base.Some? then base.value else "", '/');
    b + (if StartsWith(endpoint, "/") then endpoint else "/" + endpoint)
  }

  /** The endpoint with one leading slash removed. */
  function EndpointTail(endpoint: string): (t: string)
    ensures |t| <= |endpoint|
  {
    if StartsWith(endpoint, "/") then endpoint[1..] else endpoint
  }

  /** The URL is the base without trailing slashes, one slash, and the rest of the endpoint. */
  lemma DataUrlShape(base: Option<string>, endpoint: string)
    ensures var b := DropTrailing(if base.Some? then base.value else "", '/');
      DataUrl(base, endpoint) == b + "/" + EndpointTail(endpoint) && (b == [] || b[|b| - 1] != '/')
  {
    if StartsWith(endpoint, "/") {
      assert endpoint == "/" + endpoint[1..];
    }
  }

  /** Neither a trailing slash on the base nor a leading slash on the endpoint changes the URL. */
  lemma DataUrlSlashInsensitive(base: string, endpoint: string)
    requires !StartsWith(endpoint, "/")
    ensures DataUrl(Some(base + "/"), endpoint) == DataUrl(Some(base), endpoint)
    ensures DataUrl(Some(base), "/" + endpoint) == DataUrl(Some(base), endpoint)
  {
    assert (base + "/")[..|base|] == base;
    assert ("/" + endpoint)[..1] == "/";
  }

  // ---------------------------------------------------------------------
  // Responses

  /** A parsed JSON body. */
  datatype Json =
    | JNull
    | JBool(b: bool)
    | JNum(n: int)
    | JStr(s: string)
    | JArr(items: seq<Json>)
    | JObj(fields: Dict.Dict<Json>)

  predicate JTruthy(j: Json)
  {
    match j
    case JNull => false
    case JBool(b) => b
    case JNum(n) => n != 0
    case JStr(s) => s != ""
    case _ => true
  }

  /** `j.k`: absent for a missing key and for anything that is not an object. */
  function JField(j: Json, k: string): Option<Json>
  {
    if j.JObj? then Dict.Get(j.fields, k) else None
  }

  /** `j.k` is present and truthy. */
  predicate FieldTruthy(j: Json, k: string)
  {
    JField(j, k).Some? && JTruthy(JField(j, k).value)
  }

  /** `String(j)`, as the message of `new Error(j)`. */
  function JString(j: Json): string
    decreases j
  {
    match j
    case JNull => "null"
    case JBool(b) => if b then "true" else "false"
    case JNum(n) => IntToString(n)
    case JStr(s) => s
    case JArr(items) =>
      Join(seq(|items|, i requires 0 <= i < |items| => if items[i].JNull? then "" else JString(items[i])), ",")
    case JObj(_) => "[object Object]"
  }

  /** The status, its text, and the body (`None` when it is not JSON). */
  datatype HttpResponse = HttpResponse(status: int, statusText: string, body: Option<Json>)

  /** `response.ok`. */
  predicate Ok(r: HttpResponse)
  {
    200 <= r.status <= 299
  }

  /** The message of a failed request other than 401 and 403: `detail`, else `message`, else the status line. */
  function ErrorMessage(r: HttpResponse): (m: string)
    ensures r.body.Some? && FieldTruthy(r.body.value, "detail") ==> m == JString(JField(r.body.value, "detail").value)
    ensures r.body.Some? && !FieldTruthy(r.body.value, "detail") && FieldTruthy(r.body.value, "message") ==>
              m == JString(JField(r.body.value, "message").value)
  {
    var fallback := "API Error: " + IntToString(r.status) + " " + r.statusText;
    if r.body.None? then fallback
    else if FieldTruthy(r.body.value, "detail") then JString(JField(r.body.value, "detail").value)
    else if FieldTruthy(r.body.value, "message") then JString(JField(r.body.value, "message").value)
    else fallback
  }

  /** Without a usable `detail` or `message`, the message is the status line. */
  lemma ErrorMessageFallback(r: HttpResponse)
    requires r.body.None? || (!FieldTruthy(r.body.value, "detail") && !FieldTruthy(r.body.value, "message"))
    ensures ErrorMessage(r) == "API Error: " + IntToString(r.status) + " " + r.statusText
    ensures StartsWith(ErrorMessage(r), "API Error: ")
  {
    var p := "API Error: ";
    assert (p + IntToString(r.status) + " " + r.statusText)[..|p|] == p;
  }

  /** The NestJS wrapper `{success: true, data}` is unwrapped; every other body is returned as it is. */
  function Unwrap(body: Json, isNestJS: bool): (v: Json)
    ensures !isNestJS ==> v == body
    ensures isNestJS && JTruthy(body) && JField(body, "success") == Some(JBool(true)) && FieldTruthy(body, "data") ==>
              v == JField(body, "data").value
    ensures v != body ==> JField(body, "success") == Some(JBool(true)) && JField(body, "data") == Some(v) && JTruthy(v)
  {
    if isNestJS && JTruthy(body) && JField(body, "success") == Some(JBool(true)) && FieldTruthy(body, "data")
    then JField(body, "data").value
    else body
  }

  /** What a request comes to: a value, an error message, or an unreadable success body. */
  datatype Outcome = Resolved(value: Json) | Rejected(message: string) | Unreadable

  /** The outcome with its side effects: the stored token removed, a redirect to the login page. */
  datatype Handled = Handled(outcome: Outcome, clearToken: bool, redirectToLogin: bool)

  /** `handleResponse(response, isNestJS)` at location `pathname`. */
  function HandleResponse(r: HttpResponse, isNestJS: bool, pathname: string): (h: Handled)
    ensures h.outcome.Rejected? <==> !Ok(r)
    ensures h.clearToken <==> r.status == 401
    ensures h.redirectToLogin <==> r.status == 401 && !Contains(pathname, "/login")
    ensures r.status == 401 ==> h.outcome == Rejected("Unauthorized - logging out")
    ensures r.status == 403 ==> h.outcome == Rejected("FORBIDDEN")
    ensures !Ok(r) && r.status != 401 && r.status != 403 ==> h.outcome == Rejected(ErrorMessage(r))
    ensures Ok(r) && r.body.None? ==> h.outcome == Unreadable
    ensures Ok(r) && r.body.Some? ==> h.outcome == Resolved(Unwrap(r.body.value, isNestJS))
  {
    if !Ok(r) then
      if r.status == 401 then Handled(Rejected("Unauthorized - logging out"), true, !Contains(pathname, "/login"))
      else if r.status == 403 then Handled(Rejected("FORBIDDEN"), false, false)
      else Handled(Rejected(ErrorMessage(r)), false, false)
    else if r.body.None? then Handled(Unreadable, false, false)
    else Handled(Resolved(Unwrap(r.body.value, isNestJS)), false, false)
  }

  /** The data backend never unwraps: a successful JSON body reaches the caller untouched. */
  lemma DataResponsesNotUnwrapped(r: HttpResponse, pathname: string)
    requires Ok(r) && r.body.Some?
    ensures HandleResponse(r, false, pathname) == Handled(Resolved(r.body.value), false, false)
  {
  }

  /** A wrapped NestJS success yields its `data`; a wrapper with `success: false` is returned whole. */
  lemma NestWrapper(data: Json, pathname: string)
    requires JTruthy(data)
    ensures var body := JObj(Dict.Dict([("success", JBool(true)), ("data", data)]));
      HandleResponse(HttpResponse(200, "OK", Some(body)), true, pathname).outcome == Resolved(data)
    ensures var body := JObj(Dict.Dict([("success", JBool(false)), ("data", data)]));
      HandleResponse(HttpResponse(200, "OK", Some(body)), true, pathname).outcome == Resolved(body)
  {
    var yes := JObj(Dict.Dict([("success", JBool(true)), ("data", data)]));
    assert JField(yes, "success") == Some(JBool(true));
    assert yes.fields.entries[1..] == [("data", data)];
    assert Dict.Get(Dict.Dict([("data", data)]), "data") == Some(data);
    assert JField(yes, "data") == Some(data);
    var no := JObj(Dict.Dict([("success", JBool(false)), ("data", data)]));
    assert JField(no, "success") == Some(JBool(false));
  }

  // ---------------------------------------------------------------------
  // Query parameters

  /** A request path and its query parameters, in order (`?` only when there are any). */
  datatype Endpoint = Endpoint(path: string, query: seq<(string, string)>)

  predicate HasParam(q: seq<(string, string)>, k: string)
  {
    exists i :: 0 <= i < |q| && q[i].0 == k
  }

  /** `getContacts(skip, limit, search, status, sortBy, source)`. */
  function ContactsEndpoint(skip: int, limit: int, search: string, status: string, sortBy: string, source: string): (e: Endpoint)
    ensures e.path == "/contacts" && |e.query| >= 3
    ensures e.query[..3] == [("skip", IntToString(skip)), ("limit", IntToString(limit)), ("sort_by", sortBy)]
  {
    Endpoint("/contacts",
      [("skip", IntToString(skip)), ("limit", IntToString(limit)), ("sort_by", sortBy)]
      + (if search != "" then [("search", search)] else [])
      + (if status != "all" then [("status", status)] else [])
      + (if source != "all" then [("source", source)] else []))
  }

  /** The optional filters are sent exactly when set. */
  lemma ContactsEndpointFilters(skip: int, limit: int, search: string, status: string, sortBy: string, source: string)
    ensures var q := ContactsEndpoint(skip, limit, search, status, sortBy, source).query;
      (HasParam(q, "search") <==> search != "") &&
      (HasParam(q, "status") <==> status != "all") &&
      (HasParam(q, "source") <==> source != "all")
  {
    var head := [("skip", IntToString(skip)), ("limit", IntToString(limit)), ("sort_by", sortBy)];
    var a := if search != "" then [("search", search)] else [];
    var b := if status != "all" then [("status", status)] else [];
    var c := if source != "all" then [("source", source)] else [];
    var q := head + a + b + c;
    assert ContactsEndpoint(skip, limit, search, status, sortBy, source).query == q;
    forall i | 0 <= i < |q|
      ensures q[i].0 == "search" ==> search != ""
      ensures q[i].0 == "status" ==> status != "all"
      ensures q[i].0 == "source" ==> source != "all"
    {
      if i >= |head| + |a| + |b| {
        assert q[i] == c[i - |head| - |a| - |b|];
      } else if i >= |head| + |a| {
        assert q[i] == b[i - |head| - |a|];
      } else if i >= |head| {
        assert q[i] == a[i - |head|];
      }
    }
    if search != "" {
      assert q[3] == ("search", search);
    }
    if status != "all" {
      assert q[3 + |a|] == ("status", status);
    }
    if source != "all" {
      assert q[3 + |a| + |b|] == ("source", source);
    }
  }

  /** `getContacts()` with its defaults sends only paging and order. */
  lemma ContactsEndpointDefaults()
    ensures ContactsEndpoint(0, 20, "", "all", "desc", "all").query == [("skip", "0"), ("limit", "20"), ("sort_by", "desc")]
  {
    assert NatToString(2) == "2" && NatToString(0) == "0";
    assert NatToString(20) == NatToString(2) + [DigitChar(0)] == "20";
    assert IntToString(20) == "20" && IntToString(0) == "0";
  }

  /** `getWhatsAppCosts(startDate, endDate)`: each bound only when given. */
  function CostsEndpoint(startDate: Option<string>, endDate: Option<string>): (e: Endpoint)
    ensures e.path == "/whatsapp/costs"
    ensures |e.query| == (if HasToken(startDate) then 1 else 0) + (if HasToken(endDate) then 1 else 0)
  {
    Endpoint("/whatsapp/costs",
      (if HasToken(startDate) then [("start_date", startDate.value)] else [])
      + (if HasToken(endDate) then [("end_date", endDate.value)] else []))
  }

  /** `getKnowledgeBase` / `getKnowledgeGroups`: paging always, the category only when truthy. */
  function KnowledgeEndpoint(path: string, skip: int, limit: int, category: Option<string>): (e: Endpoint)
    ensures |e.query| == if HasToken(category) then 3 else 2
    ensures e.path == path && e.query[..2] == [("skip", IntToString(skip)), ("limit", IntToString(limit))]
  {
    Endpoint(path, [("skip", IntToString(skip)), ("limit", IntToString(limit))]
      + (if HasToken(category) then [("category", category.value)] else []))
  }

  /** `getCampaigns(status)`: the status filter only when truthy. */
  function CampaignsEndpoint(status: Option<string>): (e: Endpoint)
    ensures e.path == "/campaigns"
    ensures e.query == if HasToken(status) then [("status", status.value)] else []
  {
    Endpoint("/campaigns", if HasToken(status) then [("status", status.value)] else [])
  }

  // ---------------------------------------------------------------------
  // The menu configuration

  /** A screen row of the menu-configuration backend, under either naming. */
  datatype ScreenRow = ScreenRow(
    id: Value, screenId: Value, name: Option<string>, screenName: Option<string>,
    route: Option<string>, screenRoute: Option<string>, icon: Option<string>,
    isActive: Value, actions: Option<seq<Value>>)

  /** A module row of the menu-configuration backend, under either naming. */
  datatype ModuleRow = ModuleRow(
    id: Value, moduleId: Value, name: Option<string>, moduleName: Option<string>,
    route: Option<string>, moduleRoute: Option<string>, icon: Option<string>,
    isActive: Value, screens: Option<seq<ScreenRow>>)

  /** `a || b` on optional strings: an absent or empty `a` falls back to `b`. */
  function OrOpt(a: Option<string>, b: Option<string>): (r: Option<string>)
    ensures HasToken(a) ==> r == a
    ensures !HasToken(a) ==> r == b
  {
    if HasToken(a) then a else b
  }

  /** An optional string with a default: `a || d`. */
  function OrDefault(a: Option<string>, d: string): (r: string)
    ensures HasToken(a) ==> r == a.value
    ensures !HasToken(a) ==> r == d
  {
    if HasToken(a) then a.value else d
  }

  /** `m.screens || []`. */
  function RowScreens(m: ModuleRow): seq<ScreenRow>
  {
    if m.screens.Some? then m.screens.value else []
  }

  /** The body of the menu-configuration request: an array, an object, or anything else. */
  datatype MenuPayload =
    | PayloadArray(rows: seq<ModuleRow>)
    | PayloadObject(menus: Option<seq<ModuleRow>>)   // `None`: no `menus` array
    | PayloadOther

  /** `result.menus` when it is an array, else `result` when it is an array, else `[]`. */
  function CreatorRows(p: MenuPayload): seq<ModuleRow>
  {
    match p
    case PayloadArray(rows) => rows
    case PayloadObject(menus) => if menus.Some? then menus.value else []
    case PayloadOther => []
  }

  /** One screen of `getMenuCreator`: the prefixed keys win over the plain ones. */
  function CreatorScreen(s: ScreenRow): (t: ScreenRow)
    ensures Truthy(s.screenId) ==> t.id == s.screenId
    ensures HasToken(s.screenName) ==> t.name == s.screenName
    ensures HasToken(s.screenRoute) ==> t.route == s.screenRoute
    ensures t.screenId == s.screenId && t.screenName == s.screenName && t.screenRoute == s.screenRoute
    ensures t.icon == s.icon && t.isActive == s.isActive && t.actions == s.actions
  {
    s.(id := Or(s.screenId, s.id), name := OrOpt(s.screenName, s.name), route := OrOpt(s.screenRoute, s.route))
  }

  /** One module of `getMenuCreator`, its screens normalised in order. */
  function CreatorModule(m: ModuleRow): (n: ModuleRow)
    ensures Truthy(m.moduleId) ==> n.id == m.moduleId
    ensures HasToken(m.moduleName) ==> n.name == m.moduleName
    ensures HasToken(m.moduleRoute) ==> n.route == m.moduleRoute
    ensures n.moduleId == m.moduleId && n.moduleName == m.moduleName && n.moduleRoute == m.moduleRoute
    ensures n.screens.Some? && |n.screens.value| == |RowScreens(m)|
    ensures forall j :: 0 <= j < |RowScreens(m)| ==> n.screens.value[j] == CreatorScreen(RowScreens(m)[j])
  {
    var scs := RowScreens(m);
    m.(id := Or(m.moduleId, m.id), name := OrOpt(m.moduleName, m.name), route := OrOpt(m.moduleRoute, m.route),
       screens := Some(seq(|scs|, j requires 0 <= j < |scs| => CreatorScreen(scs[j]))))
  }

  /** `getMenuCreator()` on the response body. */
  function MenuCreator(p: MenuPayload): (r: seq<ModuleRow>)
    ensures |r| == |CreatorRows(p)|
    ensures forall i :: 0 <= i < |r| ==> r[i] == CreatorModule(CreatorRows(p)[i])
  {
    var rows := CreatorRows(p);
    seq(|rows|, i requires 0 <= i < |rows| => CreatorModule(rows[i]))
  }

  /** Normalising is idempotent: the spread keeps the prefixed keys, which win again. */
  lemma CreatorModuleIdempotent(m: ModuleRow)
    ensures CreatorModule(CreatorModule(m)) == CreatorModule(m)
  {
    var n := CreatorModule(m);
    assert RowScreens(n) == n.screens.value;
    forall j | 0 <= j < |RowScreens(n)|
      ensures CreatorScreen(RowScreens(n)[j]) == RowScreens(n)[j]
    {
    }
    assert CreatorModule(n).screens.value == n.screens.value;
  }

  /** The role id used for the sidebar: the parameter, else the stored one. */
  function SidebarRoleId(param: Value, stored: Option<string>): Value
  {
    Or(param, if stored.Some? then Str(stored.value) else Null)
  }

  /** One screen of `getSidebarMenu`, at position `j` of module `i`. */
  function SidebarScreen(s: ScreenRow, i: nat, j: nat): MenuScreen
  {
    MenuScreen(
      Or(Or(s.id, s.screenId), Str("screen-" + NatToString(i) + "-" + NatToString(j))),
      OrOpt(s.name, s.screenName),
      OrOpt(s.route, s.screenRoute),
      None,
      Some(OrDefault(s.icon, "LayoutDashboard")))
  }

  /** One module of `getSidebarMenu`, at position `i`. */
  function SidebarModule(m: ModuleRow, i: nat): MenuModule
  {
    var scs := RowScreens(m);
    MenuModule(
      Or(Or(m.id, m.moduleId), Str("module-" + NatToString(i))),
      OrStr(OrDefault(m.name, ""), OrDefault(m.moduleName, "Unnamed Module")),
      None,
      Some(seq(|scs|, j requires 0 <= j < |scs| => SidebarScreen(scs[j], i, j))))
  }

  /**
   * `getSidebarMenu(roleId)` on the response (`None` when the request
   * failed): nothing without a role id or without an array.
   */
  function SidebarMenu(roleId: Value, response: Option<MenuPayload>): (menu: seq<MenuModule>)
    ensures !Truthy(roleId) || response.None? || !response.value.PayloadArray? ==> menu == []
    ensures Truthy(roleId) && response.Some? && response.value.PayloadArray? ==> |menu| == |response.value.rows|
  {
    if !Truthy(roleId) || response.None? || !response.value.PayloadArray? then []
    else
      var rows := response.value.rows;
      seq(|rows|, i requires 0 <= i < |rows| => SidebarModule(rows[i], i))
  }

  /**
   * Every module and screen of the sidebar menu has a truthy id, a module
   * always has a label and a screen list, and a screen always has an icon.
   */
  lemma SidebarMenuComplete(roleId: Value, response: Option<MenuPayload>, i: nat)
    requires i < |SidebarMenu(roleId, response)|
    ensures var m := SidebarMenu(roleId, response)[i];
      Truthy(m.id) && m.caption != "" && m.screens.Some? &&
      forall j :: 0 <= j < |m.screens.value| ==>
        Truthy(m.screens.value[j].id) && m.screens.value[j].icon.Some? && m.screens.value[j].icon.value != ""
  {
  }

  /** Two modules without ids get different fallback ids. */
  lemma FallbackModuleIdsDistinct(m1: ModuleRow, m2: ModuleRow, i: nat, k: nat)
    requires i != k
    requires !Truthy(m1.id) && !Truthy(m1.moduleId) && !Truthy(m2.id) && !Truthy(m2.moduleId)
    ensures SidebarModule(m1, i).id != SidebarModule(m2, k).id
  {
    NatToStringRoundTrip(i);
    NatToStringRoundTrip(k);
    var p := "module-";
    assert (p + NatToString(i))[|p|..] == NatToString(i);
    assert (p + NatToString(k))[|p|..] == NatToString(k);
  }

  /** Two screens of one module without ids get different fallback ids. */
  lemma FallbackScreenIdsDistinct(s1: ScreenRow, s2: ScreenRow, i: nat, j: nat, k: nat)
    requires j != k
    requires !Truthy(s1.id) && !Truthy(s1.screenId) && !Truthy(s2.id) && !Truthy(s2.screenId)
    ensures SidebarScreen(s1, i, j).id != SidebarScreen(s2, i, k).id
  {
    NatToStringRoundTrip(j);
    NatToStringRoundTrip(k);
    var p := "screen-" + NatToString(i) + "-";
    assert "screen-" + NatToString(i) + "-" + NatToString(j) == p + NatToString(j);
    assert "screen-" + NatToString(i) + "-" + NatToString(k) == p + NatToString(k);
    assert (p + NatToString(j))[|p|..] == NatToString(j);
    assert (p + NatToString(k))[|p|..] == NatToString(k);
  }

  /**
   * The two normalisers disagree on which key wins: the builder's view
   * takes `moduleId`, the sidebar takes `id`.
   */
  lemma OppositeIdPreference(m: ModuleRow, i: nat)
    requires m.id == Str("a") && m.moduleId == Str("b")
    ensures CreatorModule(m).id == Str("b") && SidebarModule(m, i).id == Str("a")
  {
  }
}
