# tech365 front end: a Dafny model

This project models the logic of the tech365 customer-engagement console, a React single-page application with four parts:
- an admin area: dashboards, conversations, contacts, campaigns, knowledge base, users, roles and menus;
- a form builder with conditional logic;
- the renderer that shows those forms to customers, screen by screen;
- the supporting API client and state stores.

Each source file of the core becomes one Dafny module.

**Form rules.** Pure rules become datatypes and functions, with lemmas about them. These include:
- field visibility under show and hide conditions, with a guard against dependency cycles;
- screen validation and navigation;
- the flat visibility check of the verification script;
- the selectors, menu normalisation, permission derivation, access decisions, pagination, phone-number cleaning and label formatting.

**Stores and pages.** The Redux slices and the page components, whose state React updates step by step, become classes. Their fields are the source's state variables. Their methods state the whole new state after each handler. Loops in the source become methods with loop invariants, proved against the functions that specify them.

**Shared JavaScript semantics.** The `Js` module holds the JavaScript value semantics the source relies on:
- truthiness;
- loose and strict equality;
- `Number()` and `parseInt`;
- string splitting, trimming and case mapping.

Objects whose key order matters are association lists (`Dict`).

**What is a parameter.** Everything the browser or the network supplies is a parameter of the operation that receives it. This covers server answers, whether a call failed, clocks and dates, generated ids, the phone-number parser and the country table.

## Model

| member | source | states |
|---|---|---|
| Api.GetHeadersGet | src/services/api.js:8-19 | a header read from `getHeaders` is the bearer token for `Authorization` when a non-empty token is stored, else the caller's own header, else `application/json` for `Content-Type`, else absent |
| Api.DefaultHeadersCarryToken | src/services/api.js:61-101 | a call to either backend without headers of its own carries the JSON type and `Bearer <token>` |
| Api.EmptyHeadersDropAuthorization | src/services/api.js:365-371 | a data-backend call that passes `headers: {}` (the form-data uploads) sends no `Authorization` at all, because the options are spread after the computed headers; the same option on the other backend keeps the token |
| Api.EndpointTail | src/services/api.js:93 | the endpoint with at most one leading slash removed is no longer than the endpoint |
| Api.DataUrlShape | src/services/api.js:92-97 | the data URL is the base without trailing slashes, one slash, and the endpoint without its leading slash |
| Api.DataUrlSlashInsensitive | src/services/api.js:92-93 | a trailing slash on the base and a leading slash on the endpoint do not change the URL |
| Api.ErrorMessage | src/services/api.js:36-46 | a failed request's message is the body's truthy `detail`, else its truthy `message` |
| Api.ErrorMessageFallback | src/services/api.js:36-47 | without a readable body or either truthy field the message is exactly `API Error: ` followed by the status and the status text |
| Api.Unwrap | src/services/api.js:52-57 | the data backend's body is returned as it is; a body is replaced only by its truthy `data` and only under `success: true`; for the NestJS backend a truthy body with `success: true` and a truthy `data` is always replaced by that `data` |
| Api.HandleResponse | src/services/api.js:22-58 | a request is rejected exactly when the status is not ok; the token is removed exactly on 401, with a redirect exactly when the page is not already a login page; 401 rejects with `Unauthorized - logging out`, 403 with `FORBIDDEN`, and any other failure with the body's error message; an ok JSON body resolves to its unwrapped value and an ok body that is not JSON is unreadable |
| Api.DataResponsesNotUnwrapped | src/services/api.js:110 | the data backend's successful JSON reaches the caller untouched and with no side effect |
| Api.NestWrapper | src/services/api.js:53-55 | a wrapper with `success: true` and truthy data resolves to the data; one with `success: false` resolves to the whole wrapper |
| Api.ContactsEndpoint | src/services/api.js:355-356 | the contacts query always starts with `skip`, `limit` and `sort_by`, in that order |
| Api.ContactsEndpointFilters | src/services/api.js:357-359 | `search` is sent exactly when non-empty, `status` and `source` exactly when not `'all'` |
| Api.ContactsEndpointDefaults | src/services/api.js:355 | the default call sends only `skip=0`, `limit=20` and `sort_by=desc` |
| Api.CostsEndpoint | src/services/api.js:177-188 | each date bound is sent exactly when it is given and non-empty |
| Api.KnowledgeEndpoint | src/services/api.js:229-251 | paging is always sent, first; the category is added exactly when truthy |
| Api.CampaignsEndpoint | src/services/api.js:284-290 | the status filter is the whole query when truthy, and there is none otherwise |
| Api.OrOpt | src/services/api.js:536-543 | `a \|\| b` on optional strings: a non-empty `a` wins, else `b` |
| Api.OrDefault | src/services/api.js:681-686 | `a \|\| d`: a non-empty `a` wins, else the default |
| Api.CreatorScreen | src/services/api.js:539-544 | a screen keeps all its fields and takes `screenId`, `screenName`, `screenRoute` over the plain keys when they are truthy |
| Api.CreatorModule | src/services/api.js:534-545 | a module keeps all its fields, prefers the prefixed keys, and its screens are normalised one for one, in order |
| Api.MenuCreator | src/services/api.js:521-546 | `getMenuCreator` normalises every module of `result.menus`, else of `result` when it is an array, else returns none |
| Api.CreatorModuleIdempotent | src/services/api.js:534-545 | normalising an already normalised module changes nothing |
| Api.SidebarMenu | src/services/api.js:664-694 | no role id, a failed request or a body that is not an array give an empty menu; otherwise one entry per module row |
| Api.SidebarMenuComplete | src/services/api.js:678-688 | every sidebar module has a truthy id, a non-empty label and a screen list whose screens all have a truthy id and a non-empty icon |
| Api.FallbackModuleIdsDistinct | src/services/api.js:680 | two modules without ids at different positions get different `module-<i>` ids |
| Api.FallbackScreenIdsDistinct | src/services/api.js:683 | two screens without ids at different positions of one module get different `screen-<i>-<j>` ids |
| Api.OppositeIdPreference | src/services/api.js:534-680 | with both `id` and `moduleId` set, `getMenuCreator` takes `moduleId` and `getSidebarMenu` takes `id` |
| AuthRoutes.Guard | src/modules/auth/PermissionRoute.jsx:6-33 | no required screen renders the page; an agent passes every `agent/` screen; any other screen renders exactly when its permission has a truthy `read`, and otherwise redirects to `/` |
| AuthRoutes.GuardNeedsRead | src/modules/auth/PermissionRoute.jsx:25-29 | outside the agent bypass, access is exactly a truthy `read` on the screen key |
| AuthRoutes.GrantReadAdmits | src/modules/auth/PermissionRoute.jsx:25-29 | granting read on one screen admits that screen and leaves the decision for every other screen unchanged |
| AuthRoutes.FirstReadableIndex | src/modules/auth/SmartRedirect.jsx:20 | the `find` stops at the first key whose `read` is truthy; every key before it is unreadable |
| AuthRoutes.Landing | src/modules/auth/SmartRedirect.jsx:5-37 | a readable dashboard always lands on `/dashboard`; any landing route is a slash followed by a non-empty key |
| AuthRoutes.LandingPreference | src/modules/auth/SmartRedirect.jsx:9-17 | conversations is preferred over roles, and both only when the dashboard is not readable |
| AuthRoutes.LandingFallback | src/modules/auth/SmartRedirect.jsx:19-23 | with dashboard, conversations and roles all unreadable, the page lands on `/` followed by the first key, in key order, whose read is truthy, when that key is not empty |
| AuthRoutes.LandingNone | src/modules/auth/SmartRedirect.jsx:19-25 | without any readable key the access-denied page is shown; it is also shown when the first readable key is the empty string |
| AuthRoutes.ReadableKeyIsFirst | src/modules/auth/SmartRedirect.jsx:20 | a readable key means the search finds some readable key |
| AuthRoutes.FirstReadableCanRead | src/modules/auth/SmartRedirect.jsx:20-22 | the key found passes the read test |
| AuthRoutes.LandingPassesGuard | src/modules/auth/SmartRedirect.jsx:20-22 | the route chosen by the landing page is always admitted by the route guard |
| AuthSlice.AgentRoleCases | src/store/slices/authSlice.js:24 | `isAgent === true` makes an agent whatever the name; the name `agent` in any case makes an agent whatever the flag; no role is no agent |
| AuthSlice.AuthStore.constructor | src/store/slices/authSlice.js:3-10 | the slice starts with no user or role, the stored token, empty permissions, not an agent, and authenticated exactly when the stored token is truthy |
| AuthSlice.AuthStore.SetCredentials | src/store/slices/authSlice.js:16-25 | user, token and role are replaced; permissions are replaced only when given; authenticated exactly when the token is truthy; agent exactly per the role test |
| AuthSlice.AuthStore.Logout | src/store/slices/authSlice.js:26-33 | everything is cleared: no user, token or role, empty permissions, neither authenticated nor agent |
| AuthSlice.AuthStore.UpdatePermissions | src/store/slices/authSlice.js:34-36 | only the permissions change |
| CampaignsPage.FormError | src/modules/admin/campaigns/CampaignsPage.jsx:276-290 | the form is accepted exactly when the trimmed name is non-empty, a custom message is non-blank and a template is chosen for the template type; the first failing check, in that order, gives its alert |
| CampaignsPage.DataOf | src/modules/admin/campaigns/CampaignsPage.jsx:292-298 | the payload carries the trimmed name, the type and the category; the message only for the custom type and the template only for the template type, the other one null |
| CampaignsPage.ValidDataHasName | src/modules/admin/campaigns/CampaignsPage.jsx:276-298 | an accepted form always sends a non-empty name |
| CampaignsPage.Toggled | src/modules/admin/campaigns/CampaignsPage.jsx:367-375 | a toggle flips the membership of that contact and of no other |
| CampaignsPage.ToggleTwice | src/modules/admin/campaigns/CampaignsPage.jsx:367-375 | toggling the same contact twice restores the selection |
| CampaignsPage.CreateCampaignModal.constructor | src/modules/admin/campaigns/CampaignsPage.jsx:254-260 | the dialog opens on the form view with an empty name, the custom type, no message, no template, `marketing` and no contact selected |
| CampaignsPage.CreateCampaignModal.ToggleContact | src/modules/admin/campaigns/CampaignsPage.jsx:367-375 | only the selection changes, by one toggle |
| CampaignsPage.CreateCampaignModal.ResetForm | src/modules/admin/campaigns/CampaignsPage.jsx:349-356 | the form fields go back to their initial values; the selected contacts stay |
| CampaignsPage.CreateCampaignModal.SaveDraft | src/modules/admin/campaigns/CampaignsPage.jsx:301-316 | a rejected form alerts and sends nothing; otherwise the draft payload is sent, a success closes and resets the dialog, a failure alerts; on a refusal or a failure the view, every form field and the open state stay as they were |
| CampaignsPage.CreateCampaignModal.SaveAndSend | src/modules/admin/campaigns/CampaignsPage.jsx:319-347 | a rejected form or an empty selection alerts and sends nothing; otherwise the payload and the selected ids are sent; a success reports `stats.sent`, or the selection size when it is missing or 0, then closes and resets; a failure reports the error message or `Unknown error`; on a refusal or a failure the view, every form field and the open state stay as they were |
| CampaignsPage.ContactPanel.constructor | src/modules/admin/campaigns/CampaignsPage.jsx:49-57 | the panel starts on page 0 with no query, status `all`, order `desc` and total 0 |
| CampaignsPage.ContactPanel.Query | src/modules/admin/campaigns/CampaignsPage.jsx:61-66 | the query is `skip = page × 20`, `limit = 20`, the search only when non-empty, the status only when not `all`, and `sort_by` last |
| CampaignsPage.QueryKeys | src/modules/admin/campaigns/CampaignsPage.jsx:61-66 | `search` is sent exactly when the query is non-empty and `status` exactly when the filter is not `all` |
| CampaignsPage.ContactPanel.Search | src/modules/admin/campaigns/CampaignsPage.jsx:84-87 | a new query goes back to page 0 |
| CampaignsPage.ContactPanel.ChooseStatus | src/modules/admin/campaigns/CampaignsPage.jsx:120 | choosing a status goes back to page 0 and keeps the search and the order |
| CampaignsPage.ContactPanel.ChooseSort | src/modules/admin/campaigns/CampaignsPage.jsx:135 | choosing an order goes back to page 0 and keeps the search and the status |
| CampaignsPage.ContactPanel.Previous | src/modules/admin/campaigns/CampaignsPage.jsx:227-228 | Previous lowers the page by one and never below 0 |
| CampaignsPage.ContactPanel.Next | src/modules/admin/campaigns/CampaignsPage.jsx:234-235 | Next raises the page only while `(page + 1) × 20 < total` |
| CampaignsPage.MatchingCampaigns | src/modules/admin/campaigns/CampaignsPage.jsx:731-733 | a campaign is kept exactly when it has a name containing the query, ignoring case; kept items stay in their input order (MatchingCampaignsAppend) |
| CampaignsPage.MatchingCampaignsAppend | src/modules/admin/campaigns/CampaignsPage.jsx:731-733 | like `Array.prototype.filter`, it keeps order and multiplicity: filtering `a + b` gives the filtered `a` followed by the filtered `b` |
| CampaignsPage.ShownCampaigns | src/modules/admin/campaigns/CampaignsPage.jsx:731-738 | the list shown is a permutation of the matching campaigns, newest first for `'newest'` and oldest first otherwise |
| CampaignsPage.WithoutCampaign | src/modules/admin/campaigns/CampaignsPage.jsx:707-716 | a successful delete keeps exactly the campaigns with another id; kept items stay in their input order (WithoutCampaignAppend) |
| CampaignsPage.WithoutCampaignAppend | src/modules/admin/campaigns/CampaignsPage.jsx:707-716 | like `Array.prototype.filter`, it keeps order and multiplicity: filtering `a + b` gives the filtered `a` followed by the filtered `b` |
| ChatDashboard.Flatten | src/components/Dashboard.jsx:25 | the flattened list holds exactly the messages of the conversations |
| ChatDashboard.FlattenSingle | src/components/Dashboard.jsx:25 | flattening a single conversation gives its messages unchanged |
| ChatDashboard.FlattenAppend | src/components/Dashboard.jsx:25 | flattening two groups of conversations gives the first group's messages followed by the second's, so order and multiplicities are kept |
| ChatDashboard.FlattenLength | src/components/Dashboard.jsx:25 | flattening keeps every message: its length is the sum of the conversation lengths |
| ChatDashboard.CountDirection | src/components/Dashboard.jsx:44-45 | a direction count never exceeds the number of messages |
| ChatDashboard.DirectionsWithinTotal | src/components/Dashboard.jsx:43-45 | incoming plus outgoing never exceed the total, since other directions are counted in neither |
| ChatDashboard.TotalTokensPerMessage | src/components/Dashboard.jsx:47-54 | the input total plus the output total is the sum over messages of each message's own tokens |
| ChatDashboard.MissingTokensAddNothing | src/components/Dashboard.jsx:48-52 | a message without token counts adds 0 to both totals |
| ChatDashboard.StatsOf | src/components/Dashboard.jsx:42-84 | over the flattened list, the cards show the message count, the `in` and `out` counts and the input and output token sums; Total Tokens is input plus output and also the per-message sum; incoming plus outgoing never exceed the total |
| ChatDashboard.CountDirectionAppend | src/components/Dashboard.jsx:44-45 | a direction count over two lists joined is the sum of their counts |
| ChatDashboard.TokensAppend | src/components/Dashboard.jsx:47-54 | the input and output token sums over two lists joined are the sums of their sums |
| ChatDashboard.StatsAppend | src/components/Dashboard.jsx:25-54 | every card figure of two groups of conversations together is the sum of the two groups' figures |
| ChatSession.LeadKey | src/modules/admin/conversations/ConversationsPage.jsx:369-373 | a lead is keyed exactly when it has a non-empty phone, by the digits of that phone |
| ChatSession.LastLeadWith | src/modules/admin/conversations/ConversationsPage.jsx:369-373 | the lead found for a key carries that key; none is found only when no lead does |
| ChatSession.LeadsIntoGet | src/modules/admin/conversations/ConversationsPage.jsx:369-373 | after the `forEach`, a key holds the last lead with that key, or what it held before |
| ChatSession.LeadsMapGet | src/modules/admin/conversations/ConversationsPage.jsx:366-373 | the leads map sends each key to the last lead with that phone |
| ChatSession.LeadsMapHasKey | src/modules/admin/conversations/ConversationsPage.jsx:366-373 | a key is in the leads map exactly when some lead's phone digits are that key |
| ChatSession.BuildLeadsMap | src/modules/admin/conversations/ConversationsPage.jsx:366-373 | the loop builds exactly the leads map |
| ChatSession.FirstPresent | src/modules/admin/conversations/ConversationsPage.jsx:397 | a chain `a \|\| b \|\| … \|\| fallback` gives a non-empty candidate when there is one and the fallback only when there is none |
| ChatSession.FirstOfThree | src/components/admin/ConversationsPage.jsx:28 | `name \|\| whatsapp \|\| email \|\| fallback` takes the first non-empty of the three, in that order |
| ChatSession.PreviewOf | src/modules/admin/conversations/ConversationsPage.jsx:428 | the preview is the first n characters of the last entry's text, else of its user text, else `No messages` |
| ChatSession.LastEntry | src/modules/admin/conversations/ConversationsPage.jsx:399 | the last entry exists exactly when the conversation is non-empty, and is its final element |
| ChatSession.FloorDiv | src/modules/admin/conversations/ConversationsPage.jsx:1575-1583 | `Math.floor(a / b)` for a positive divisor is the largest multiple of b not above a |
| ChatSession.NestedFloors | src/modules/admin/conversations/ConversationsPage.jsx:1575-1583 | flooring minutes, then hours, then days equals flooring the milliseconds by the hour and day lengths |
| CloseChat.PayloadOf | src/modules/admin/conversations/CloseChatModal.jsx:12-18 | the payload carries the feedback and the report flag, and a reason exactly when reporting |
| CloseChat.Caption | src/modules/admin/conversations/CloseChatModal.jsx:113-118 | the button reads `Processing...` while loading; otherwise `Report & Close` when reporting and `Close Chat` when not; `Report & Close` exactly when not loading and reporting |
| CloseChat.CloseChatDialog.constructor | src/modules/admin/conversations/CloseChatModal.jsx:6-8 | the dialog starts with no feedback, not reporting and no reason |
| CloseChat.CloseChatDialog.SetFeedback | src/modules/admin/conversations/CloseChatModal.jsx:6 | typing changes only the feedback |
| CloseChat.CloseChatDialog.SetReportUser | src/modules/admin/conversations/CloseChatModal.jsx:62 | the checkbox changes only the report flag |
| CloseChat.CloseChatDialog.ChooseReason | src/modules/admin/conversations/CloseChatModal.jsx:75-79 | a reason button sets one of the four reasons and nothing else |
| CloseChat.CloseChatDialog.Submit | src/modules/admin/conversations/CloseChatModal.jsx:108-109 | a payload is handed over exactly when the dialog is open and submit is enabled (not loading, and a reason chosen when reporting); it is the dialog's payload and any reason is one of the four |
| Conversations.EntryMessages | src/modules/admin/conversations/ConversationsPage.jsx:451-520 | a turn entry gives its user prompt (unless it repeats the previous entry's text) as incoming and its bot reply as outgoing, a human reply marked agent and any other marked bot; a text entry with a direction gives that one message; a role entry gives one message, incoming exactly for role `user`, marked agent exactly when `agentId` is truthy and bot exactly when it is not and the role is not `user`; anything else gives none |
| Conversations.FlattenLength | src/modules/admin/conversations/ConversationsPage.jsx:451-521 | flattening yields at most two messages per entry |
| Conversations.RepeatedPromptShownOnce | src/modules/admin/conversations/ConversationsPage.jsx:457-465 | an incoming message followed by a turn whose prompt repeats it shows the prompt once, then the bot reply |
| Conversations.EffectiveAgent | src/modules/admin/conversations/ConversationsPage.jsx:401 | the effective agent is truthy exactly when the session or its lead has an assigned agent |
| Conversations.ApprovalOf | src/modules/admin/conversations/ConversationsPage.jsx:446-450 | a closed session is `closed`; otherwise `assigned` exactly when an agent is effective; otherwise `pending` exactly when the lead's status is `transfer_to_agent`; otherwise `active` |
| Conversations.StatusOf | src/modules/admin/conversations/ConversationsPage.jsx:430 | a closed session reads `resolved`; otherwise a truthy lead status wins |
| Conversations.SessionKeptIff | src/modules/admin/conversations/ConversationsPage.jsx:380-385 | a session is listed exactly when it has a WhatsApp number whose digits are the phone digits of some lead |
| Conversations.KeptSessions | src/modules/admin/conversations/ConversationsPage.jsx:380-385 | the kept sessions are exactly the sessions that pass the lead test |
| Conversations.KeptSessionsAppend | src/modules/admin/conversations/ConversationsPage.jsx:380-385 | the kept sessions stay in session order: two runs of sessions keep what each run keeps, in turn |
| Conversations.FormatTimeAgo | src/modules/admin/conversations/ConversationsPage.jsx:1569-1578 | no date reads `Unknown`, under a minute `Just now`, under an hour the whole minutes followed by `min ago` |
| Conversations.HourBucket | src/modules/admin/conversations/ConversationsPage.jsx:1580-1581 | from one hour to a day the label is the whole hours, plural from two |
| Conversations.DayBucket | src/modules/admin/conversations/ConversationsPage.jsx:1583-1584 | from one day on the label is the whole days, plural from two |
| Conversations.ToConversation | src/modules/admin/conversations/ConversationsPage.jsx:387-523 | a conversation carries the session's approval state and flattened messages, no unread messages, a non-empty title, and the session id or else its index |
| Conversations.ConversationsOf | src/modules/admin/conversations/ConversationsPage.jsx:380-523 | one conversation per kept session, in order, each indexed by its position among the kept sessions |
| Conversations.SessionOf | src/modules/admin/conversations/ConversationsPage.jsx:527-528 | the comparator's lookup returns a kept session whose `id \|\| index` is strictly equal to the conversation id, and none exactly when no kept session passes that test |
| Conversations.SessionOfFirst | src/modules/admin/conversations/ConversationsPage.jsx:527-528 | the lookup returns the first kept session that passes the test |
| Conversations.SortedConversations | src/modules/admin/conversations/ConversationsPage.jsx:525-532 | the re-sorted list is a permutation of the conversations, ordered newest first by the `updated_at`, else `created_at`, else epoch date of the session the comparator looks up (the epoch when it finds none) |
| Conversations.SortedConversationsStable | src/modules/admin/conversations/ConversationsPage.jsx:526-532 | conversations with the same date keep their session order, as the stable `Array.prototype.sort` guarantees |
| Conversations.OwnSessionDate | src/modules/admin/conversations/ConversationsPage.jsx:527-530 | when every kept session has its own truthy id, each conversation is sorted by the date of its own session |
| Conversations.NewerListedFirst | src/modules/admin/conversations/ConversationsPage.jsx:526-532 | when every kept session has its own truthy id, the conversation of a newer session is listed before that of an older one |
| Conversations.Select | src/modules/admin/conversations/ConversationsPage.jsx:597-614 | a status filter keeps exactly the conversations that pass its test |
| Conversations.SelectAppend | src/modules/admin/conversations/ConversationsPage.jsx:597-625 | each filter keeps the conversations in their order: filtering two runs of conversations gives the result of each run in turn |
| Conversations.AgentViewsPartition | src/modules/admin/conversations/ConversationsPage.jsx:597-602 | the agent's closed view and open view split the list: every conversation is in exactly one |
| Conversations.Displayed | src/modules/admin/conversations/ConversationsPage.jsx:593-627 | a conversation is displayed exactly when it passes the view of the role: for an agent the closed-or-resolved or the open view, for an admin the status filter (any other value keeps all) and, unless `all`, the agent filter |
| Conversations.DisplayedAppend | src/modules/admin/conversations/ConversationsPage.jsx:593-627 | the displayed list keeps the conversations in their order: two runs of conversations display as the display of each run in turn |
| Conversations.AgentFilterComparesText | src/modules/admin/conversations/ConversationsPage.jsx:620-625 | the agent filter compares the text of the ids, so a numeric agent id matches its decimal string |
| Conversations.StatsConversations | src/modules/admin/conversations/ConversationsPage.jsx:652-658 | the counters read every conversation for an agent or when no agent filter is set |
| Conversations.CountersAddUp | src/modules/admin/conversations/ConversationsPage.jsx:660-664 | the pending, assigned, active and closed counters add up to the conversations counted |
| Conversations.EmptySearchKeepsAll | src/modules/admin/conversations/ConversationsPage.jsx:638-642 | an empty search keeps every displayed conversation |
| Conversations.MergeIncoming | src/modules/admin/conversations/ConversationsPage.jsx:177-206 | a real-time message is appended to every conversation with the same phone digits and nothing else changes; that conversation's unread counter is reset when it is the selected one and raised by one otherwise |
| Conversations.UnmatchedMessageNoChange | src/modules/admin/conversations/ConversationsPage.jsx:179-204 | a message for no listed phone leaves the list unchanged |
| Conversations.FindById | src/modules/admin/conversations/ConversationsPage.jsx:538 | the conversation found has the id; none is found only when no conversation has it |
| Conversations.NextSelection | src/modules/admin/conversations/ConversationsPage.jsx:537-555 | after a refresh a found target is selected; a missing target keeps the selection; without a target the first conversation is selected when nothing or a vanished conversation was selected |
| Conversations.ConversationsPage.constructor | src/modules/admin/conversations/ConversationsPage.jsx:17-29 | the page starts with no conversations, no selection, loading, the status filter on `assigned` for an agent and `all` for an admin, and the agent filter on `all` |
| Conversations.ConversationsPage.FetchConversations | src/modules/admin/conversations/ConversationsPage.jsx:327-560 | a failed fetch keeps the list and the selection; otherwise the list is rebuilt from the sessions and the leads and re-sorted newest first, and the selection follows the refresh rule unless the number of displayed conversations changed, in which case the first displayed conversation (or none) is selected; the filters are kept and loading ends either way |
| Conversations.FirstListed | src/modules/admin/conversations/ConversationsPage.jsx:631-635 | the pick is none exactly for an empty list and otherwise its first conversation |
| Conversations.ConversationsPage.DisplayedNow | src/modules/admin/conversations/ConversationsPage.jsx:593-627 | the page displays exactly its conversations that pass its current filters |
| Conversations.ConversationsPage.AutoSelect | src/modules/admin/conversations/ConversationsPage.jsx:629-636 | the effect selects the first displayed conversation, or nothing when none is displayed, and changes nothing else |
| Conversations.ConversationsPage.SetStatusFilter | src/modules/admin/conversations/ConversationsPage.jsx:822-880 | a new status filter re-runs the auto-select effect; choosing the current one changes nothing |
| Conversations.ConversationsPage.SetAgentFilter | src/modules/admin/conversations/ConversationsPage.jsx:923-941 | a new agent filter re-runs the auto-select effect; choosing the current one changes nothing |
| Conversations.ConversationsPage.ReceiveMessage | src/modules/admin/conversations/ConversationsPage.jsx:161-222 | the list takes the merged message and the selection gets the message and `Just now` exactly when it is the same chat; the filters stay |
| CreateUserModal.E164Digits | src/modules/admin/users/CreateUserModal.jsx:58 | a mobile passes `^\+[1-9]\d{1,14}$` exactly when it is `+` followed by 2 to 15 digits, the first not 0 |
| CreateUserModal.ValidationError | src/modules/admin/users/CreateUserModal.jsx:51-62 | `All fields are required` exactly when the username, the email, the password when creating, or the role is missing; otherwise the mobile message exactly when a non-empty mobile is not E.164; otherwise no error |
| CreateUserModal.PayloadOf | src/modules/admin/users/CreateUserModal.jsx:66-76 | the payload carries the username, email and mobile as typed, the role id through `parseInt`, and the password exactly when one was typed |
| CreateUserModal.PrefillRoleId | src/modules/admin/users/CreateUserModal.jsx:24 | the prefilled role is the user's `roleId` when truthy, else the role object's id when truthy, else `''` |
| CreateUserModal.OrEmpty | src/modules/admin/users/CreateUserModal.jsx:20-22 | a missing field prefills as `''` |
| CreateUserModal.UserForm.constructor | src/modules/admin/users/CreateUserModal.jsx:8-15 | the dialog starts with an empty form, no error, creating |
| CreateUserModal.UserForm.Prefill | src/modules/admin/users/CreateUserModal.jsx:17-35 | editing a user copies its username, email and mobile, leaves the password empty and prefills the role; creating clears the form |
| CreateUserModal.UserForm.SetField | src/modules/admin/users/CreateUserModal.jsx:39-45 | an edit changes that one field and nothing else |
| CreateUserModal.UserForm.Submit | src/modules/admin/users/CreateUserModal.jsx:47-99 | a failing check shows its message and sends nothing; otherwise the payload is sent, a success clears the form and closes, a failure keeps the form and shows the error's message or `Failed to save user` |
| CreateUserModal.EditWithoutPasswordKeepsIt | src/modules/admin/users/CreateUserModal.jsx:52-76 | an edit with every other field valid passes without a password and sends none |
| CreateUserModal.CreateNeedsPassword | src/modules/admin/users/CreateUserModal.jsx:52 | creating without a password is refused with the required-fields message |
| CreateUserModal.LeadingZeroRefused | src/modules/admin/users/CreateUserModal.jsx:58 | a country code starting with 0 is refused |
| CreateUserModal.SixteenDigitsRefused | src/modules/admin/users/CreateUserModal.jsx:58 | sixteen digits are refused |
| DashboardData.Weight | src/hooks/useDashboardData.js:40-42 | a session weighs its `message_count`, or 1 when that is 0 or missing, never 0 |
| DashboardData.WeekOf | src/hooks/useDashboardData.js:39-43 | a session counts for this week exactly when its date is on or after this week's start, for last week exactly when it falls between the two starts; other sessions are not counted |
| DashboardData.EachSessionCountedOnce | src/hooks/useDashboardData.js:35-50 | the fourteen cells add up to the total weight of the sessions of the two weeks, each counted in exactly one cell |
| DashboardData.GroupSessionsByDay | src/hooks/useDashboardData.js:5-51 | seven rows, Monday to Sunday, each holding that weekday's weight for this week and for last week |
| DashboardData.NoSessionsAllZero | src/hooks/useDashboardData.js:6-16 | with no sessions every cell is 0 |
| DashboardData.SlotOf | src/hooks/useDashboardData.js:70-79 | hours 0 to 5 have no slot; hour h from 6 on goes to slot ⌊(h−6)/2⌋, one of the nine |
| DashboardData.GroupMessagesByHour | src/hooks/useDashboardData.js:54-90 | nine slots, 6AM to 10PM, each holding the weight of the sessions created in its two hours |
| DashboardData.EarlyHoursIgnored | src/hooks/useDashboardData.js:81-83 | a session created before 6 AM adds to no slot |
| DashboardData.PairsBefore | src/hooks/useDashboardData.js:104-119 | the pairs counted are at most the positions scanned and their delays add up to less than five minutes each |
| DashboardData.AverageWithinWindow | src/hooks/useDashboardData.js:98-125 | with no pair the total is 0; otherwise the total delay lies strictly between 0 and five minutes times the number of pairs, so the average is within the window |
| DashboardData.PairsPositive | src/hooks/useDashboardData.js:115-118 | only positive delays are counted |
| DashboardData.CountPairs | src/hooks/useDashboardData.js:104-120 | the loop over one conversation counts exactly its in→out pairs whose delay is positive and under five minutes |
| DashboardData.ResponseTotals | src/hooks/useDashboardData.js:101-121 | the loop over all sessions counts exactly the pairs of all conversations |
| DashboardData.ZeroResponseLabel | src/hooks/useDashboardData.js:123-125 | the label `0s` is shown exactly when no pair counts |
| DashboardData.ActiveUsers | src/hooks/useDashboardData.js:174-184 | the count is `total_users` when non-zero, else the number of conversation keys, else 0; a failed request gives 0 |
| DashboardData.FormatTimeAgo | src/hooks/useDashboardData.js:268-276 | no date reads `Unknown`, under a minute `Just now`, and under an hour the whole minutes followed by `min ago` |
| DashboardData.DaysLabel | src/hooks/useDashboardData.js:282-283 | from one day on the label is the whole days followed by `day ago`, `days ago` from two days |
| DashboardData.HoursLabel | src/hooks/useDashboardData.js:279-280 | from one hour to a day the label is the whole hours followed by `hr ago`, never plural |
| DashboardData.ToRecent | src/hooks/useDashboardData.js:208-215 | a recent item always has a name, a status and a message, and takes the colour at its index modulo 4 |
| DashboardData.NewestFour | src/hooks/useDashboardData.js:205-207 | at most four sessions, the newest first, drawn from the sessions, and none of the others is newer |
| Sorting.SortBy | src/hooks/useDashboardData.js:205-206 | the sorted copy is a permutation of the input in key order, newest first or oldest first, an absent key counting as oldest |
| Sorting.SortStable | src/hooks/useDashboardData.js:205-206 | the sort is stable: the elements sharing a key keep their relative order, as `Array.prototype.sort` guarantees |
| Js.Unique | src/modules/admin/pending-conversations/PendingConversationsPage.jsx:64 | `[...new Set(xs)]` holds exactly the values of the input, each once, in order of first appearance |
| Js.PrefixOfUnique | src/components/admin/knowledge-base/KnowledgeDrawer.jsx:24 | `[...new Set(xs)].slice(0, n)` is the first n distinct values: a value is left out only when n values, all appearing before it, are taken |
| DashboardData.RecentConversations | src/hooks/useDashboardData.js:205-215 | at most four items, one per newest session in order |
| DashboardHeader.MatchingSections | src/components/admin/dashboard/DashboardHeader.jsx:94-98 | a section is a result exactly when its name or its description contains the query, ignoring case; kept items stay in their input order (MatchingSectionsAppend) |
| DashboardHeader.MatchingSectionsAppend | src/components/admin/dashboard/DashboardHeader.jsx:94-98 | like `Array.prototype.filter`, it keeps order and multiplicity: filtering `a + b` gives the filtered `a` followed by the filtered `b` |
| DashboardHeader.NameFindsSection | src/components/admin/dashboard/DashboardHeader.jsx:5-14 | searching a section's own name always finds it |
| DashboardHeader.WithoutNotification | src/components/admin/dashboard/DashboardHeader.jsx:120-122 | dismissing keeps exactly the notifications with another id; kept items stay in their input order (WithoutNotificationAppend) |
| DashboardHeader.WithoutNotificationAppend | src/components/admin/dashboard/DashboardHeader.jsx:120-122 | like `Array.prototype.filter`, it keeps order and multiplicity: filtering `a + b` gives the filtered `a` followed by the filtered `b` |
| DashboardHeader.Header.constructor | src/components/admin/dashboard/DashboardHeader.jsx:16-30 | the header starts with the default workspace active, no notification, every panel closed and an empty search |
| DashboardHeader.Header.Search | src/components/admin/dashboard/DashboardHeader.jsx:91-105 | a query that is not blank shows the matching sections; a blank one clears and hides the results; nothing else changes |
| DashboardHeader.Header.Focus | src/components/admin/dashboard/DashboardHeader.jsx:228 | focusing shows the results, all sections when the query is empty and the previous results otherwise |
| DashboardHeader.Header.SectionClick | src/components/admin/dashboard/DashboardHeader.jsx:108-112 | a click scrolls to that section, hides the results and empties the query |
| DashboardHeader.Header.MarkAllRead | src/components/admin/dashboard/DashboardHeader.jsx:115-118 | every notification is removed and the panel closes |
| DashboardHeader.Header.DismissNotification | src/components/admin/dashboard/DashboardHeader.jsx:120-122 | only that notification is removed |
| DashboardHeader.Header.CreateWorkspace | src/components/admin/dashboard/DashboardHeader.jsx:125-138 | a non-blank trimmed name is appended as a new workspace, made active, the input cleared and both panels closed; a blank name changes nothing |
| EarliestConversations.MessagesOf | src/components/admin/ConversationsPage.jsx:34-39 | each entry becomes exactly one message with its text and direction, in order |
| EarliestConversations.Preview | src/components/admin/ConversationsPage.jsx:29 | the preview is the first 50 characters of the first entry's text, or `No messages` |
| EarliestConversations.ToConversation | src/components/admin/ConversationsPage.jsx:26-40 | `active` exactly when the conversation is non-empty, else `resolved`; unread exactly beyond five entries; the title is the name, else the number, else the email, else `Conversation #<index+1>`; one message per entry |
| EarliestConversations.ConversationsOf | src/components/admin/ConversationsPage.jsx:17-21 | every session is listed, in order, with its own index |
| EarliestConversations.FilteredConversations | src/components/admin/ConversationsPage.jsx:62-65 | a conversation is shown exactly when its title or preview contains the query, ignoring case; kept items stay in their input order (FilteredConversationsAppend) |
| EarliestConversations.FilteredConversationsAppend | src/components/admin/ConversationsPage.jsx:62-65 | like `Array.prototype.filter`, it keeps order and multiplicity: filtering `a + b` gives the filtered `a` followed by the filtered `b` |
| EarliestConversations.EarlyPage.constructor | src/components/admin/ConversationsPage.jsx:7-10 | the page starts with no conversations and no selection |
| EarliestConversations.EarlyPage.Load | src/components/admin/ConversationsPage.jsx:15-52 | a load lists every session and selects the first when there is one; otherwise the selection stays; a failed load changes nothing |
| LegacyConversations.EntryMessages | src/components/admin/conversations/ConversationsPage.jsx:47-87 | an entry gives at most two messages; one with a text and a direction or a role gives exactly one message with that text |
| LegacyConversations.FlattenAppend | src/components/admin/conversations/ConversationsPage.jsx:47-87 | flattening works entry by entry: the messages of two runs of entries are the messages of each, in order |
| LegacyConversations.PromptAlwaysShown | src/components/admin/conversations/ConversationsPage.jsx:68-77 | a turn's prompt without a text of its own is always shown as an incoming message |
| LegacyConversations.RepeatedPromptShownTwice | src/components/admin/conversations/ConversationsPage.jsx:59-77 | a logged prompt followed by a turn repeating it is shown twice here, while the newer page shows it once |
| LegacyConversations.TextBeforeTurn | src/components/admin/conversations/ConversationsPage.jsx:49-56 | an entry with both a text and a turn shows only its text here, while the newer page shows the turn |
| LegacyConversations.SameAsPendingWithoutTurns | src/components/admin/conversations/ConversationsPage.jsx:47-87 | without turn entries this page and the pending page flatten alike |
| LegacyConversations.FirstEntry | src/components/admin/conversations/ConversationsPage.jsx:42 | the first entry exists exactly when the conversation is non-empty |
| LegacyConversations.ToConversation | src/components/admin/conversations/ConversationsPage.jsx:38-88 | `active` exactly when non-empty, unread exactly beyond five entries, a non-empty title, the session's number kept, and the flattened messages |
| LegacyConversations.ConversationsOf | src/components/admin/conversations/ConversationsPage.jsx:29-33 | every session is listed, in order, with its own index |
| LegacyConversations.FilteredConversations | src/components/admin/conversations/ConversationsPage.jsx:127-130 | a conversation is shown exactly when its title or preview contains the query, ignoring case; kept items stay in their input order (FilteredConversationsAppend) |
| LegacyConversations.FilteredConversationsAppend | src/components/admin/conversations/ConversationsPage.jsx:127-130 | like `Array.prototype.filter`, it keeps order and multiplicity: filtering `a + b` gives the filtered `a` followed by the filtered `b` |
| LegacyConversations.FindById | src/components/admin/conversations/ConversationsPage.jsx:95 | the conversation found has the id; none is found only when no conversation has it |
| LegacyConversations.NextSelection | src/components/admin/conversations/ConversationsPage.jsx:93-108 | a found target is selected, a missing one keeps the selection; without a target the first is selected on the initial load and a current selection is refreshed when still listed and kept otherwise; a selection is never lost |
| LegacyConversations.LegacyPage.constructor | src/components/admin/conversations/ConversationsPage.jsx:7-12 | the page starts with no conversations, no selection and an empty input |
| LegacyConversations.LegacyPage.Fetch | src/components/admin/conversations/ConversationsPage.jsx:27-115 | a fetch lists every session and updates the selection by the refresh rule; a failed fetch changes nothing |
| LegacyConversations.LegacyPage.TriggerAI | src/components/admin/conversations/ConversationsPage.jsx:147-171 | the AI is called exactly when a conversation is selected, the input is not blank and the conversation has a WhatsApp id, with that id and the input, which is then cleared; a successful call refetches and keeps the conversation selected; otherwise nothing changes |
| DynamicForm.FormScreens | src/components/DynamicForm.jsx:116-118 | the schema's screens when present, else one `default` screen holding the schema's fields, else none |
| DynamicForm.StoreFields | src/components/DynamicForm.jsx:126-130 | storing fields by id keeps the map keyed by id, adds exactly their ids, lets the last field with an id win and leaves other keys as they were |
| DynamicForm.AllFieldsMap | src/components/DynamicForm.jsx:123-134 | the field map sends each id to a field with that id |
| DynamicForm.AllFieldsMapLastWins | src/components/DynamicForm.jsx:128-131 | a screen field that no later field shares an id with is the one stored under its id |
| DynamicForm.AllFieldsMapKeys | src/components/DynamicForm.jsx:123-134 | an id is in the map exactly when some top-level field or some screen field has it |
| DynamicForm.FieldsAt | src/components/DynamicForm.jsx:234 | past the last screen there are no fields to validate |
| DynamicForm.FieldError | src/components/DynamicForm.jsx:236-276 | a hidden field never gets an error; a visible required field whose answer is undefined, null, `''` or `[]` gets `<label> is required`; an optional field without a truthy answer gets none; without validation rules the only possible error is the required one; once a field reaches its validation rules, a number above `max` gets `<label> must be at most <max>`, otherwise a number below `min` gets `<label> must be at least <min>`, otherwise a failed pattern gets the configured message or `Invalid format for <label>`, and otherwise there is no error |
| DynamicForm.ScreenErrorsKeys | src/components/DynamicForm.jsx:233-277 | a field id has an error exactly when some field of the screen with that id fails its checks |
| DynamicForm.ScreenValidIff | src/components/DynamicForm.jsx:279-291 | the screen is valid exactly when no field of it has an error |
| DynamicForm.ScreenValidMembers | src/components/DynamicForm.jsx:279-291 | the same equivalence stated over the fields themselves: no error recorded exactly when every field of the screen passes |
| DynamicForm.NextVisibleFrom | src/components/DynamicForm.jsx:302-318 | the scan forward stops at the first screen from k on with a visible field, or past the end when there is none |
| DynamicForm.PrevVisibleFrom | src/components/DynamicForm.jsx:341-357 | the scan backward stops at the last screen up to k with a visible field, or at -1 when there is none |
| DynamicForm.CollectVisibleGet | src/components/DynamicForm.jsx:370-377 | an id is collected exactly when some field with that id is visible, and it holds that field's answer |
| DynamicForm.SubmitterId | src/components/DynamicForm.jsx:385 | the submitter is the user's id when truthy, and `anonymous_user` without a user or without any of id, phone and email |
| DynamicForm.FormRenderer.constructor | src/components/DynamicForm.jsx:103-134 | the renderer starts on screen 0 with no answers and no errors, over the schema's screens and field map |
| DynamicForm.FormRenderer.SetResponse | src/components/DynamicForm.jsx:206-219 | an answer changes only that key of the answers |
| DynamicForm.FormRenderer.HasNextVisibleScreen | src/components/DynamicForm.jsx:137-152 | true exactly when some later screen has a visible field |
| DynamicForm.FormRenderer.ValidateScreen | src/components/DynamicForm.jsx:224-292 | the errors become exactly the current screen's errors and the result is true exactly when none of its fields has one |
| DynamicForm.CheckFields | src/components/DynamicForm.jsx:236-277 | the `forEach` over the screen's fields leaves exactly the errors of those fields, keyed by field id |
| DynamicForm.FormRenderer.Next | src/components/DynamicForm.jsx:294-333 | after validation the screen moves to the first later screen with a visible field, only when the screen is valid and such a screen exists; otherwise it stays |
| DynamicForm.FindNextScreen | src/components/DynamicForm.jsx:302-318 | the auto-skip scan returns the first screen from the given index on that has a visible field, or a value past the last screen when none has |
| DynamicForm.FormRenderer.Back | src/components/DynamicForm.jsx:335-364 | the screen moves to the last earlier screen with a visible field, or stays when there is none |
| DynamicForm.FormRenderer.CollectResponses | src/components/DynamicForm.jsx:370-377 | the nested loops collect exactly the visible answers of all screens |
| DynamicForm.FormRenderer.Submit | src/components/DynamicForm.jsx:366-394 | submit validates the screen; a valid screen outside preview sends the numeric form id, the submitter and the visible answers; a valid preview only marks the preview complete; an invalid screen sends nothing |
| FieldConfig.LookupSelected | src/modules/forms/builder/FieldConfigPanel.jsx:23-33 | the panel's loop finds the first field with the selected id in screen order together with the screen holding it, and nothing without a selection |
| FieldConfig.PanelAgreesWithSelector | src/modules/forms/builder/FieldConfigPanel.jsx:26-33 | for a non-empty id the panel and the selected-field selector find the same field |
| FieldConfig.ValidationChangeGet | src/modules/forms/builder/FieldConfigPanel.jsx:51-55 | the changed rule is removed for `''`, null or false and set otherwise; every other rule is unchanged |
| FieldConfig.RequiredSwitch | src/modules/forms/builder/FieldConfigPanel.jsx:170-172 | the switch leaves the field's id, its top-level `required` flag and its renderer validation alone |
| FieldConfig.RequiredSwitchDrivesMarkerOnly | src/modules/forms/builder/FieldConfigPanel.jsx:170-177 | the switch decides the asterisk and never the flag the renderer validates |
| FieldConfig.SwitchedOnFieldAcceptsEmptyAnswer | src/modules/forms/builder/FieldConfigPanel.jsx:170-172 | a field switched to required but without the top-level flag shows the asterisk and still accepts an empty answer |
| FieldConfig.NumberedOption | src/modules/forms/builder/FieldConfigPanel.jsx:59 | option n is labelled `Option n` with value `option_n` |
| FieldConfig.AddOption | src/modules/forms/builder/FieldConfigPanel.jsx:57-61 | one option is appended, numbered one past the previous count, and the others are kept |
| FieldConfig.NumberedOptionsDistinct | src/modules/forms/builder/FieldConfigPanel.jsx:59 | options with different numbers have different values |
| FieldConfig.AddTwiceDistinct | src/modules/forms/builder/FieldConfigPanel.jsx:57-61 | two options added in a row get different values |
| FieldConfig.EditOption | src/modules/forms/builder/FieldConfigPanel.jsx:65 | an edit sets the label or the value and keeps the other component |
| FieldConfig.UpdateOption | src/modules/forms/builder/FieldConfigPanel.jsx:63-67 | only the option at the index changes |
| FieldConfig.RemoveOption | src/modules/forms/builder/FieldConfigPanel.jsx:69-73 | removing an index deletes exactly that option; an index past the end removes nothing; a negative index counts from the end, and one below `-length` removes the first option |
| FieldConfig.RemoveUndoesAddOption | src/modules/forms/builder/FieldConfigPanel.jsx:57-73 | removing the option just added restores the list |
| FieldConfig.SanitizeSlug | src/modules/forms/builder/FieldConfigPanel.jsx:130 | the new id keeps only letters, digits, `_` and `-`, and is no longer than the text typed |
| FieldConfig.SanitizeSlugIdempotent | src/modules/forms/builder/FieldConfigPanel.jsx:130 | sanitising twice is sanitising once, and a text of slug characters is kept as typed |
| FieldConfig.SanitizeSlugKeepsSlugChars | src/modules/forms/builder/FieldConfigPanel.jsx:130 | every slug character typed is kept, in the same number |
| FieldConfig.SlugEdit | src/modules/forms/builder/FieldConfigPanel.jsx:128-131 | a slug edit keeps the number of screens |
| FieldConfig.ClearedSlugRenamesToEmpty | src/modules/forms/builder/FieldConfigPanel.jsx:128-131 | typing only non-slug characters renames the field to the empty id |
| FieldConfig.AddAfterRemoveRepeatsValue | src/modules/forms/builder/FieldConfigPanel.jsx:57-73 | adding after a removal can repeat a value already in the list (two options valued `option_2`) |
| FormBuilder.IndexOfScreen | src/store/slices/formBuilderSlice.js:123 | `findIndex` over screens: the first screen with the id, or the length when none has it |
| FormBuilder.IndexOfField | src/store/slices/formBuilderSlice.js:201 | `findIndex` over fields: the first field with the id, or the length when none has it |
| FormBuilder.ScreenWithField | src/store/slices/formBuilderSlice.js:256-261 | the first screen holding a field with the id, or the length when none does |
| FormBuilder.ScreenWithFieldFound | src/store/slices/formBuilderSlice.js:256-261 | a screen is found exactly when some screen holds the id |
| FormBuilder.CountId | src/store/slices/formBuilderSlice.js:191 | the number of fields with the id is at most the number of fields |
| FormBuilder.CountIdZero | src/store/slices/formBuilderSlice.js:191 | no field has the id exactly when the count is zero |
| FormBuilder.FilterOutId | src/store/slices/formBuilderSlice.js:191 | the filter drops exactly the fields counted with the id |
| FormBuilder.FilterOutIdRemovesAll | src/store/slices/formBuilderSlice.js:191 | after the filter no field has the id |
| FormBuilder.FilterOutIdMembers | src/store/slices/formBuilderSlice.js:191 | a field survives the filter exactly when its id differs |
| FormBuilder.FilterOutIdAppend | src/store/slices/formBuilderSlice.js:191 | the filter distributes over concatenation |
| FormBuilder.CountAppend | src/store/slices/formBuilderSlice.js:301-307 | counts of an id add up over concatenation |
| FormBuilder.GeneratedId | src/store/slices/formBuilderSlice.js:31-33 | a generated id starts with its type and an underscore |
| FormBuilder.NewScreen | src/store/slices/formBuilderSlice.js:110-115 | a new screen is empty, carries a generated id and is titled `Screen n+1` |
| FormBuilder.DeleteScreenFrom | src/store/slices/formBuilderSlice.js:119-129 | a delete keeps at least one screen; a last screen or an unknown id changes nothing; otherwise exactly the screen at the found index goes |
| FormBuilder.SelectionAfterDelete | src/store/slices/formBuilderSlice.js:127 | after a delete at index i the selected screen is the one at `max(0, i-1)` |
| FormBuilder.Capitalized | src/store/slices/formBuilderSlice.js:174 | the first character is upper-cased and the rest kept |
| FormBuilder.NewField | src/store/slices/formBuilderSlice.js:149-182 | the yes/no preset is a required radio with Yes and No; any other type is an optional field labelled `New <Type>`, with one option for select, radio and checkbox and none otherwise |
| FormBuilder.ApplyPatch | src/store/slices/formBuilderSlice.js:203 | a patch never touches the id, the type or the required flag |
| FormBuilder.PatchFirst | src/store/slices/formBuilderSlice.js:196-207 | the first field with the id, in screen order, is patched and nothing else changes; an unknown id changes nothing |
| FormBuilder.RetargetCondition | src/store/slices/formBuilderSlice.js:235-241 | a condition on the old id now names the new id; the other parts are kept |
| FormBuilder.RetargetField | src/store/slices/formBuilderSlice.js:229-250 | a field without logic conditions is unchanged; otherwise each condition is retargeted and the action and match type are kept |
| FormBuilder.RenameFirstIn | src/store/slices/formBuilderSlice.js:216-226 | in each screen only the first field with the old id is renamed |
| FormBuilder.RetargetScreen | src/store/slices/formBuilderSlice.js:229-251 | every field of a screen has its conditions retargeted |
| FormBuilder.RenameFieldId | src/store/slices/formBuilderSlice.js:208-252 | a rename keeps the number of screens |
| FormBuilder.RenameRejected | src/store/slices/formBuilderSlice.js:210-214 | an equal new id, or one some field already has, changes nothing |
| FormBuilder.RenameIds | src/store/slices/formBuilderSlice.js:216-226 | after an accepted rename the first field with the old id in each screen carries the new id and every other id is unchanged |
| FormBuilder.RenameRetargetsConditions | src/store/slices/formBuilderSlice.js:228-251 | after an accepted rename no condition names the old id, conditions that did now name the new id, and the others are unchanged |
| FormBuilder.MoveWithin | src/store/slices/formBuilderSlice.js:279-282 | the moved field lands at the target index and the others keep their relative order |
| FormBuilder.MoveWithinPermutes | src/store/slices/formBuilderSlice.js:272-283 | a move is a permutation of the screen's fields |
| FormBuilder.FirstFieldWithId | src/store/slices/formBuilderSlice.js:288-295 | a field is found exactly when some screen holds the id, and it carries that id |
| FormBuilder.RemoveEverywhere | src/store/slices/formBuilderSlice.js:299-302 | every screen loses its fields with the id and keeps the rest |
| FormBuilder.MoveToScreen | src/store/slices/formBuilderSlice.js:284-311 | a move keeps the number of screens |
| FormBuilder.MoveToScreenExisting | src/store/slices/formBuilderSlice.js:297-310 | with a known field and target, every screen loses the field and the target alone gets it back once, at the end |
| FormBuilder.MoveToScreenUnknownTarget | src/store/slices/formBuilderSlice.js:305-310 | with an unknown target the field is removed from every screen and lands nowhere |
| FormBuilder.SaveField | src/store/slices/formBuilderSlice.js:48-56 | a saved field keeps the id, the validation rules and the logic |
| FormBuilder.SaveScreen | src/store/slices/formBuilderSlice.js:45-57 | a saved screen keeps its id and saves each field in order |
| FormBuilder.SavePayloadOf | src/store/slices/formBuilderSlice.js:41-59 | the payload is named after the title and saves every screen in order |
| FormBuilder.LoadField | src/store/slices/formBuilderSlice.js:48-56 | a field read back has the saved id and rules and no top-level required flag |
| FormBuilder.SaveDropsRequiredFlag | src/store/slices/formBuilderSlice.js:48-56 | saving and reading back loses the required flag and keeps the rules, the logic and the id |
| FormBuilder.YesNoLosesRequired | src/store/slices/formBuilderSlice.js:149-165 | the yes/no preset is required in the builder and not after a save |
| FormBuilder.PublishGuard | src/store/slices/formBuilderSlice.js:83-86 | publishing without a truthy form id fails with "Form must be saved before publishing." and only then |
| FormBuilder.FindField | src/store/slices/formBuilderSlice.js:288-295 | the search loop finds the first field with the id |
| FormBuilder.RemoveFromAll | src/store/slices/formBuilderSlice.js:299-302 | the `forEach` filter removes the id from every screen |
| FormBuilder.AnyHasFieldScan | src/store/slices/formBuilderSlice.js:213 | the collision test answers whether any screen holds the id |
| FormBuilder.RenameInAll | src/store/slices/formBuilderSlice.js:216-226 | the rename loop renames the first field with the old id in each screen and reports whether one was found |
| FormBuilder.RenameFirstField | src/store/slices/formBuilderSlice.js:217-220 | one screen of the loop: the first field with the old id takes the new id, and the result says whether there was one |
| FormBuilder.RetargetAll | src/store/slices/formBuilderSlice.js:229-251 | the `forEach` retargets the conditions of every field |
| FormBuilder.Builder.constructor | src/store/slices/formBuilderSlice.js:4-28 | the initial state, and `resetBuilder`: one empty screen `Screen 1` selected, no field selected, an untitled unsaved form with idle flags |
| FormBuilder.Builder.SetFormMetadata | src/store/slices/formBuilderSlice.js:103-107 | only the parts given are set; the form id, the screens, the selections and the five save and publish status fields stay as they were |
| FormBuilder.Builder.AddScreen | src/store/slices/formBuilderSlice.js:109-118 | one new screen is appended and selected, the field selection is cleared and the list stays non-empty; the form id, title, description and the five save and publish status fields stay as they were |
| FormBuilder.Builder.DeleteScreen | src/store/slices/formBuilderSlice.js:119-130 | the screens become those of the delete function; an accepted delete selects the neighbour and clears the field selection; the form id, title, description and the five save and publish status fields stay as they were |
| FormBuilder.Builder.SelectScreen | src/store/slices/formBuilderSlice.js:131-134 | the screen is selected and the field selection cleared; the form id, title, description and the five save and publish status fields stay as they were |
| FormBuilder.Builder.UpdateScreenTitle | src/store/slices/formBuilderSlice.js:135-141 | only the first screen with the id is retitled and the selections stay; the form id, title, description and the five save and publish status fields stay as they were |
| FormBuilder.Builder.AddField | src/store/slices/formBuilderSlice.js:144-185 | the new field is appended to the selected screen and selected; without a selected screen nothing changes; the form id, title, description and the five save and publish status fields stay as they were |
| FormBuilder.Builder.RemoveField | src/store/slices/formBuilderSlice.js:186-195 | the field is filtered out of the selected screen only and the selection cleared if it was that field; the form id, title, description and the five save and publish status fields stay as they were |
| FormBuilder.Builder.UpdateField | src/store/slices/formBuilderSlice.js:196-207 | the screens become the patched screens and the selections stay; the form id, title, description and the five save and publish status fields stay as they were |
| FormBuilder.Builder.UpdateFieldId | src/store/slices/formBuilderSlice.js:208-252 | the screens become the renamed screens and the selected field follows an accepted rename; the form id, title, description and the five save and publish status fields stay as they were |
| FormBuilder.Builder.SelectField | src/store/slices/formBuilderSlice.js:253-262 | the field is selected and the first screen holding it becomes the selected screen; the form id, title, description and the five save and publish status fields stay as they were |
| FormBuilder.Builder.MoveField | src/store/slices/formBuilderSlice.js:272-283 | an out-of-range target changes nothing; otherwise the selected screen's fields are moved within; the selections, the form id, title, description and the five save and publish status fields stay as they were |
| FormBuilder.Builder.MoveFieldToScreen | src/store/slices/formBuilderSlice.js:284-311 | the screens become the moved screens and the target is selected when the move happened; the form id, title, description and the five save and publish status fields stay as they were |
| FormBuilder.Builder.SavePending | src/store/slices/formBuilderSlice.js:319-325 | a save starts: saving, no error, not published, no publish error; the form id, title, description, screens, selections and publishing flag stay, so the save sends the edited title |
| FormBuilder.Builder.SaveFulfilled | src/store/slices/formBuilderSlice.js:326-331 | a save ends and a truthy returned id becomes the form id; everything else stays as it was |
| FormBuilder.Builder.SaveRejected | src/store/slices/formBuilderSlice.js:332-335 | a save ends with the rejection as the error; everything else stays as it was |
| FormBuilder.Builder.PublishPending | src/store/slices/formBuilderSlice.js:338-342 | a publish starts: publishing, no publish error, not published; everything else stays as it was |
| FormBuilder.Builder.PublishFulfilled | src/store/slices/formBuilderSlice.js:343-346 | a publish ends published; everything else stays as it was |
| FormBuilder.Builder.PublishRejected | src/store/slices/formBuilderSlice.js:347-350 | a publish ends with the rejection as its error; everything else stays as it was |
| FormBuilder.Builder.SaveRequest | src/store/slices/formBuilderSlice.js:39-68 | a truthy form id makes the save an update; the payload is that of the current title, description and screens |
| FormSelectors.AllFieldsIndex | src/store/selectors/formSelectors.js:21-24 | a field of screen s sits in the flattened list after the fields of every earlier screen |
| FormSelectors.AllFieldsOrigin | src/store/selectors/formSelectors.js:21-24 | every flattened field comes from some screen |
| FormSelectors.FieldsByScreenId | src/store/selectors/formSelectors.js:30-36 | the fields of the first screen with the id, and none when no screen has it |
| FormSelectors.CurrentScreen | src/store/selectors/formSelectors.js:41-44 | a screen of the list with the selected id, found exactly when some screen has that id |
| FormSelectors.CurrentScreenFields | src/store/selectors/formSelectors.js:30-44 | the screen's fields are the current screen's fields, or none without a current screen |
| FormSelectors.SelectedField | src/store/selectors/formSelectors.js:49-55 | no selection or an empty id selects nothing; a selected field has the id and is one of all the fields |
| FormSelectors.IndexOfFieldFound | src/store/selectors/formSelectors.js:53 | `find` succeeds exactly when a field has the id |
| FormSelectors.IndexOfFieldAppend | src/store/selectors/formSelectors.js:53 | the first match in a concatenation is in the first part when it has one |
| FormSelectors.SelectedFieldIsFirstMatch | src/store/selectors/formSelectors.js:49-55 | for a non-empty id the selector and the reducers' field search find the same field |
| FormSelectors.SelectedFieldNone | src/store/selectors/formSelectors.js:49-55 | nothing is selected exactly when there is no id, the id is empty or no field has it |
| FormSelectors.AvailableFields | src/store/selectors/formSelectors.js:61-64 | the logic candidates are at most all the fields |
| FormSelectors.AvailableFieldsMembers | src/store/selectors/formSelectors.js:61-64 | a field is a candidate exactly when it is a field of the form with a different id |
| FormSelectors.AvailableFieldsInScreenOrder | src/store/selectors/formSelectors.js:61-64 | the candidates are the flattened fields of the screens with the excluded id removed, in screen order |
| LogicEditor.EffectiveLogic | src/modules/forms/builder/ConditionalLogicEditor.jsx:36 | the editor edits the given logic, or a `show` rule without conditions |
| LogicEditor.DefaultLogicShows | src/modules/forms/builder/ConditionalLogicEditor.jsx:36 | a field carrying the default logic is always visible |
| LogicEditor.ConditionList | src/modules/forms/builder/ConditionalLogicEditor.jsx:44 | missing conditions read as an empty list |
| LogicEditor.AddCondition | src/modules/forms/builder/ConditionalLogicEditor.jsx:42-48 | one blank `equals` condition is appended and the rest of the logic is kept |
| LogicEditor.RemoveCondition | src/modules/forms/builder/ConditionalLogicEditor.jsx:50-54 | exactly the condition at the index goes; an index past the end removes nothing; a negative index counts from the end, and one below `-length` removes the first condition |
| LogicEditor.RemoveUndoesAdd | src/modules/forms/builder/ConditionalLogicEditor.jsx:42-54 | removing the condition just added restores the list |
| LogicEditor.EditCondition | src/modules/forms/builder/ConditionalLogicEditor.jsx:56-63 | an edit sets one key; choosing a new dependent field also clears the value |
| LogicEditor.UpdateCondition | src/modules/forms/builder/ConditionalLogicEditor.jsx:56-66 | only the condition at the index changes |
| LogicEditor.SetDependentRetargets | src/modules/forms/builder/ConditionalLogicEditor.jsx:60-63 | after choosing a dependent field the condition names it and its value is empty |
| LogicEditor.SetMatchType | src/modules/forms/builder/ConditionalLogicEditor.jsx:151-152 | the match type is set and the action and conditions are kept |
| LogicEditor.SetMatchTypeAny | src/modules/forms/builder/ConditionalLogicEditor.jsx:151-152 | choosing `any` makes the renderer combine the same conditions with OR |
| LogicEditor.LiftOption | src/modules/forms/builder/ConditionalLogicEditor.jsx:78-82 | a text option becomes a pair with that text as label and value; a pair is kept |
| LogicEditor.FieldOptions | src/modules/forms/builder/ConditionalLogicEditor.jsx:72-85 | options are offered exactly when the dependent field is among the candidates and has a non-empty option list, and all of them are pairs |
| LogicEditor.FieldOptionsOfferStoredValues | src/modules/forms/builder/ConditionalLogicEditor.jsx:72-85 | each offered value is the value the response stores for that option |
| FormFieldView.MarkerIgnoresRequiredFlag | src/components/FormField.jsx:14 | the asterisk reads the validation rules and never the top-level required flag |
| FormFieldView.SelectValue | src/components/FormField.jsx:35 | a falsy value shows as the empty choice and a string as itself |
| FormFieldView.OptionValue | src/components/FormField.jsx:78 | a bare text option has no `value` property |
| FormFieldView.AtMostOneRadioChecked | src/components/FormField.jsx:70-80 | with distinct option values at most one radio is checked |
| FormFieldView.UnansweredBareOptionChecked | src/components/FormField.jsx:78 | before an answer every bare text option reads as checked, and no pair option does |
| FormFieldView.Chars | src/components/FormField.jsx:105 | spreading a string gives its characters one by one |
| FormFieldView.Without | src/components/FormField.jsx:106 | the filter keeps exactly the items strictly different from the option value |
| FormFieldView.WithoutAbsent | src/components/FormField.jsx:106 | filtering out a value that is not there changes nothing |
| FormFieldView.WithoutFilterAppend | src/components/FormField.jsx:106 | the filter distributes over concatenation |
| FormFieldView.CheckboxToggle | src/components/FormField.jsx:104-106 | a click yields an array: from no answer, the value alone or nothing; checking appends the value to an array answer |
| FormFieldView.IsChecked | src/components/FormField.jsx:102 | a box is checked when the array answer includes its value; no answer checks nothing |
| FormFieldView.ToggleShowsClickedState | src/components/FormField.jsx:102-106 | after a click the box shows the state it was clicked to |
| FormFieldView.UncheckKeepsOthers | src/components/FormField.jsx:106 | unchecking keeps every other answer |
| FormFieldView.CheckThenUncheck | src/components/FormField.jsx:104-106 | checking a box and unchecking it restores the answer |
| FormSlice.ClearFieldError | src/store/slices/formSlice.js:43-45 | clearing an error never adds one |
| FormSlice.ClearFieldErrorGet | src/store/slices/formSlice.js:43-45 | other fields' errors are kept and the field is left with no error or an empty one |
| FormSlice.StoreResponseGet | src/store/slices/formSlice.js:42 | the field now answers the new value and every other field keeps its answer |
| FormSlice.FormStore.constructor | src/store/slices/formSlice.js:30-38 | no schema, empty responses and errors, idle flags, no error |
| FormSlice.FormStore.UpdateResponse | src/store/slices/formSlice.js:40-46 | the response is stored and a truthy error of that field is deleted; nothing else changes |
| FormSlice.FormStore.SetErrors | src/store/slices/formSlice.js:47-49 | the errors object is replaced and nothing else changes |
| FormSlice.FormStore.ResetForm | src/store/slices/formSlice.js:50-55 | responses, errors, the success flag and the error are cleared; the schema stays |
| FormSlice.FormStore.FetchPending | src/store/slices/formSlice.js:59-62 | loading starts and the error is cleared |
| FormSlice.FormStore.FetchFulfilled | src/store/slices/formSlice.js:63-66 | loading ends and the schema is the payload |
| FormSlice.FormStore.FetchRejected | src/store/slices/formSlice.js:67-70 | loading ends with the rejection as the error |
| FormSlice.FormStore.SubmitPending | src/store/slices/formSlice.js:71-75 | submitting starts, not yet a success, no error |
| FormSlice.FormStore.SubmitFulfilled | src/store/slices/formSlice.js:76-79 | submitting ends in success |
| FormSlice.FormStore.SubmitRejected | src/store/slices/formSlice.js:80-84 | submitting ends without success and with the rejection as the error |
| FormModel.AllFields | src/store/selectors/formSelectors.js:23 | no screens give no fields |
| FormModel.AllFieldsAppend | src/store/selectors/formSelectors.js:23 | the flattening distributes over concatenated screen lists |
| FormModel.AllFieldsMember | src/store/selectors/formSelectors.js:23 | a field is among all the fields exactly when some screen holds it |
| Visibility.Lookup | src/components/DynamicForm.jsx:56 | a field without a response reads as undefined |
| Visibility.PendingShrinks | src/components/DynamicForm.jsx:25-30 | adding the current id to the visited set strictly shrinks the set of fields still to visit, so the recursion ends |
| Visibility.NoConditionsVisible | src/components/DynamicForm.jsx:35-38 | a field without conditions, or with an empty list, is visible |
| Visibility.VisitedIsVisible | src/components/DynamicForm.jsx:25-28 | a field already on the evaluation path counts as visible, which breaks cycles |
| Visibility.HiddenDependencyFails | src/components/DynamicForm.jsx:47-54 | a condition on a known field that is itself hidden fails |
| Visibility.UnknownDependencyCompares | src/components/DynamicForm.jsx:49-85 | a condition on a field unknown to the map compares the stored response directly |
| Visibility.OperatorSemantics | src/components/DynamicForm.jsx:67-84 | `in` looks the response up in the target array, `contains` the target in the response array, `not_empty` rejects undefined, null and `''`, and an unknown operator fails |
| Visibility.EqualsSymmetric | src/components/DynamicForm.jsx:61-66 | loose equality is symmetric and `not_equals` is its negation |
| Visibility.LessIsSwappedGreater | src/components/DynamicForm.jsx:73-78 | `less_than` is `greater_than` with the operands swapped |
| Visibility.WithAction | src/components/DynamicForm.jsx:89 | changing the action keeps the id, the conditions and the match type |
| Visibility.HideNegatesShow | src/components/DynamicForm.jsx:88-91 | with conditions, `hide` is exactly the negation of `show` |
| Visibility.MatchTypeSemantics | src/components/DynamicForm.jsx:40-44 | a `show` field with conditions is visible exactly when some condition holds under `any`, and when every one holds otherwise |
| VerifyLogic.FlatNoConditionsVisible | verify_logic.js:7 | a field without conditions is visible |
| VerifyLogic.FlatUnknownOperatorHolds | verify_logic.js:15-23 | every operator other than `equals` and `not_equals` passes, even those the renderer fails |
| VerifyLogic.FlatActionSemantics | verify_logic.js:9-27 | a field with conditions is visible exactly when all of them hold, negated for `hide` |
| VerifyLogic.FlatIgnoresMatchType | verify_logic.js:9 | the match type never changes the result: conditions are always combined with AND |
| VerifyLogic.FlatAgreesOnIndependentEquals | src/components/DynamicForm.jsx:23-92 | on AND-combined `equals` conditions over fields outside the map, the check agrees with the renderer |
| VerifyLogic.ShowWhen | verify_logic.js:37-46 | a scenario field shows when one other field equals a value |
| VerifyLogic.FlatShowWhen | verify_logic.js:9-27 | such a field is visible in the check exactly when the response loosely equals the value |
| VerifyLogic.VisibleShowWhen | src/components/DynamicForm.jsx:40-91 | such a field is visible in the renderer exactly when its one condition is met |
| VerifyLogic.ScenarioMapKeyed | verify_logic.js:31-67 | the scenario map stores each field under its own id |
| VerifyLogic.ScenarioInitial | verify_logic.js:80-81 | with nothing answered only the product question is visible |
| VerifyLogic.ScenarioProductChosen | verify_logic.js:83-84 | choosing M365 shows the customer-type question and neither follow-up |
| VerifyLogic.ScenarioExistingCustomer | verify_logic.js:86-90 | an existing customer sees the licence question and not the migration one |
| VerifyLogic.ScenarioNewCustomer | verify_logic.js:92-96 | a new customer sees the migration question and not the licence one |
| VerifyLogic.ScenarioStaleAnswer | verify_logic.js:98-102 | after a product change with a stale answer kept, the check still shows the licence question while the renderer hides it |
| VerifyLogic.StaleLicenseHidden | verify_logic.js:98-102 | with the stale answers, the renderer hides the licence question because the question it depends on is hidden |
| Layout.StripOneSlash | src/modules/admin/layout/Layout.jsx:39 | at most one leading character is removed, and the rest is kept |
| Layout.RouteKeyCases | src/modules/admin/layout/Layout.jsx:39 | the key is the path without one leading slash, and the id when that leaves nothing or there is no path |
| Layout.DeriveIntoGet | src/modules/admin/layout/Layout.jsx:37-47 | after the loop a key names full access exactly when some screen has it, and other keys keep their entry |
| Layout.DerivedGet | src/modules/admin/layout/Layout.jsx:36-47 | the derived permissions give full access to exactly the menu's route keys and nothing else |
| Layout.DeriveIntoWellFormed | src/modules/admin/layout/Layout.jsx:37-47 | the loop keeps one entry per key |
| Layout.DerivedWellFormed | src/modules/admin/layout/Layout.jsx:36-47 | the derived object has one entry per key |
| Layout.MenuScreensAdmitted | src/modules/admin/layout/Layout.jsx:36-49 | every menu screen's route passes the permission guard, for agents and admins alike |
| Layout.DeriveIntoAppend | src/modules/admin/layout/Layout.jsx:37-47 | deriving over two screen lists in turn is deriving over their concatenation |
| Layout.DeriveScreens | src/modules/admin/layout/Layout.jsx:38-46 | the inner `forEach` gives the derivation over one module's screens |
| Layout.DerivePermissions | src/modules/admin/layout/Layout.jsx:36-47 | the outer `forEach` gives the derived permissions of the whole menu |
| Layout.AllowedRoutesAreScreenPaths | src/modules/admin/layout/Layout.jsx:61-63 | the allowed routes are the screens' paths, one per screen, in menu order |
| Layout.AllowedRouteReadable | src/modules/admin/layout/Layout.jsx:39-63 | every allowed route with a path that is not just a slash is readable under the derived permissions |
| Layout.LayoutView.constructor | src/modules/admin/layout/Layout.jsx:13-14 | an empty menu, loading |
| Layout.LayoutView.FetchMenu | src/modules/admin/layout/Layout.jsx:19-58 | an array or an object's `modules` (empty when absent) becomes the menu and its derived permissions are dispatched; a null answer throws and changes neither; loading ends either way and the rest of the session is untouched |
| Sidebar.IconName | src/modules/admin/layout/Sidebar.jsx:108 | the lookup name keeps only ASCII letters and digits |
| Sidebar.IconFor | src/modules/admin/layout/Sidebar.jsx:108-109 | a known name gives its icon and any other the dashboard icon |
| Sidebar.IconFallback | src/modules/admin/layout/Sidebar.jsx:108-109 | no icon, or an empty one, shows the dashboard icon |
| Sidebar.UnderscoreAliasUnreachable | src/modules/admin/layout/Sidebar.jsx:33-108 | the `knowledge_base` alias can never be looked up, since the underscore is stripped first |
| Sidebar.CleanPath | src/modules/admin/layout/Sidebar.jsx:113 | every leading slash is removed and the rest kept; no path gives `''` |
| Sidebar.StartsWithSlashAfter | src/modules/admin/layout/Sidebar.jsx:118 | starting with `p/` is starting with `p` followed by a slash |
| Sidebar.ActiveAtSegmentBoundary | src/modules/admin/layout/Sidebar.jsx:111-118 | an item is highlighted exactly when the location equals its path or continues it after a slash; an item without a path is highlighted only at the root |
| Sidebar.PrefixSiblingInactive | src/modules/admin/layout/Sidebar.jsx:118 | `/users2` does not highlight `/users` and `/users/5` does |
| Sidebar.NavTarget | src/modules/admin/layout/Sidebar.jsx:129 | a click navigates to an absolute path |
| Sidebar.NavigationHighlightsItem | src/modules/admin/layout/Sidebar.jsx:118-129 | after clicking an item with a path, that item is highlighted |
| Sidebar.NavTargetMatchesPermissionKey | src/modules/admin/layout/Sidebar.jsx:129 | for a path with one leading slash the click goes to the item's permission key |
| Sidebar.DoubleSlashKeysDiffer | src/modules/admin/layout/Sidebar.jsx:113-129 | for `//reports` the permission key keeps a slash (`/reports`) that navigation does not |
| Sidebar.RenderedModules | src/modules/admin/layout/Sidebar.jsx:96-98 | exactly the modules with at least one screen are rendered |
| Sidebar.RenderedModulesKeepScreens | src/modules/admin/layout/Sidebar.jsx:96-98 | skipping empty modules loses no screen |
| Sidebar.RoleInitial | src/modules/admin/layout/Sidebar.jsx:84 | the badge is the role name's upper-cased first letter, and `C` without a name |
| Sidebar.RoleTitle | src/modules/admin/layout/Sidebar.jsx:88 | the title is the role name, and never empty |
| RoleManagement.ScreenEntry | src/modules/superadmin/RoleManagementPage.jsx:69-74 | a matrix row is keyed by the screen's route, labelled with its name and module, and resolves to its id or else its `screenId` |
| RoleManagement.ModuleEntries | src/modules/superadmin/RoleManagementPage.jsx:67-76 | one row per screen of a module, in order |
| RoleManagement.SystemScreensCount | src/modules/superadmin/RoleManagementPage.jsx:64-78 | the matrix has one row per screen of the menu |
| RoleManagement.SystemScreensAppend | src/modules/superadmin/RoleManagementPage.jsx:66-77 | the rows of two module lists are the rows of each in turn |
| RoleManagement.SystemScreensFromMenu | src/modules/superadmin/RoleManagementPage.jsx:64-78 | every row comes from a screen of some module |
| RoleManagement.PushModuleEntries | src/modules/superadmin/RoleManagementPage.jsx:67-76 | the inner loop appends one module's rows |
| RoleManagement.BuildSystemScreens | src/modules/superadmin/RoleManagementPage.jsx:64-78 | the loop builds the matrix rows of the whole menu |
| RoleManagement.ToggleFlips | src/modules/superadmin/RoleManagementPage.jsx:184-198 | a toggle flips exactly that cell; other screens and other actions of the screen keep their value |
| RoleManagement.ToggleTwice | src/modules/superadmin/RoleManagementPage.jsx:184-198 | toggling a cell twice leaves it as it was |
| RoleManagement.ActionIds | src/modules/superadmin/RoleManagementPage.jsx:137-140 | the action ids are those of known ticked keys, never more than the cells |
| RoleManagement.ActionIdsSelected | src/modules/superadmin/RoleManagementPage.jsx:137-140 | a known action's id is sent exactly when its cell is ticked |
| RoleManagement.ActionIdsAppend | src/modules/superadmin/RoleManagementPage.jsx:137-140 | the action ids of two cell lists are those of each in turn |
| RoleManagement.ApproveDropped | src/modules/superadmin/RoleManagementPage.jsx:111-140 | a ticked `approve` cell is never sent, since it has no action id |
| RoleManagement.FindScreen | src/modules/superadmin/RoleManagementPage.jsx:125 | the row found has the key, and none is found when no row has it |
| RoleManagement.Draft | src/modules/superadmin/RoleManagementPage.jsx:118-145 | a screen entry yields a grant exactly when its id resolves, and the grant carries the ticked action ids |
| RoleManagement.Drafts | src/modules/superadmin/RoleManagementPage.jsx:118-145 | one draft per matrix entry, in order |
| RoleManagement.KeepGrants | src/modules/superadmin/RoleManagementPage.jsx:146 | the kept grants all have a truthy screen and at least one action |
| RoleManagement.KeepGrantsMembers | src/modules/superadmin/RoleManagementPage.jsx:146 | a grant is kept exactly when it was drafted with a truthy screen and some action |
| RoleManagement.KeepGrantsAppend | src/modules/superadmin/RoleManagementPage.jsx:146 | the final filter distributes over concatenation |
| RoleManagement.PermissionsPayload | src/modules/superadmin/RoleManagementPage.jsx:118-146 | the payload has at most one grant per matrix entry, all valid |
| RoleManagement.PermissionsPayloadAppend | src/modules/superadmin/RoleManagementPage.jsx:118-146 | the payload of two entry lists is the payload of each in turn |
| RoleManagement.RowKeySentWithRealId | src/modules/superadmin/RoleManagementPage.jsx:125-146 | a key of a matrix row with a real id is sent under that id with its ticked actions |
| RoleManagement.UnresolvedKeyDropped | src/modules/superadmin/RoleManagementPage.jsx:130-135 | an unresolved key that does not parse as a number is dropped |
| RoleManagement.NumericKeyFallback | src/modules/superadmin/RoleManagementPage.jsx:131-133 | an unresolved numeric key is sent under its parsed number |
| RoleManagement.NothingTickedDropped | src/modules/superadmin/RoleManagementPage.jsx:146 | a screen with nothing ticked is dropped |
| RoleManagement.SaveRequestFor | src/modules/superadmin/RoleManagementPage.jsx:98-161 | an empty name is refused; otherwise a new role is created, an edited one updated, with the form's name and permission payload |
| RoleManagement.EditForm | src/modules/superadmin/RoleManagementPage.jsx:285-291 | editing a role fills the form with its name and its description or `''` |
| RoleManagement.FilteredRoles | src/modules/superadmin/RoleManagementPage.jsx:200 | a role is listed exactly when its name contains the search, ignoring case; kept items stay in their input order (FilteredRolesAppend) |
| RoleManagement.FilteredRolesAppend | src/modules/superadmin/RoleManagementPage.jsx:200 | like `Array.prototype.filter`, it keeps order and multiplicity: filtering `a + b` gives the filtered `a` followed by the filtered `b` |
| RoleManagement.EmptySearchListsAll | src/modules/superadmin/RoleManagementPage.jsx:200 | an empty search lists every role in order |
| RoleManagement.CustomRolesCount | src/modules/superadmin/RoleManagementPage.jsx:203-205 | the custom counter is the number of non-system roles, never negative |
| RoleManagement.RolePage.constructor | src/modules/superadmin/RoleManagementPage.jsx:29-47 | no roles or screens, an empty form, no role edited, closed, loading, no search |
| RoleManagement.RolePage.FetchData | src/modules/superadmin/RoleManagementPage.jsx:54-86 | a response sets the roles (`[]` when missing) and the matrix rows; a failure keeps both; loading ends |
| RoleManagement.RolePage.OpenCreate | src/modules/superadmin/RoleManagementPage.jsx:219-221 | creating opens an empty form for no role; the roles, the matrix rows, the search and the loading flag stay |
| RoleManagement.RolePage.OpenEdit | src/modules/superadmin/RoleManagementPage.jsx:284-293 | editing opens the role's form; the roles, the matrix rows, the search and the loading flag stay |
| RoleManagement.RolePage.TogglePermission | src/modules/superadmin/RoleManagementPage.jsx:184-198 | the form's matrix is toggled at one cell and nothing else changes, the loading flag included |
| RoleManagement.RolePage.HandleSave | src/modules/superadmin/RoleManagementPage.jsx:98-170 | the request is that of the form; the modal closes only after a successful accepted save; the form, the roles, the matrix rows, the search and the loading flag stay |
| MenuBuilder.RemoveAt | src/modules/superadmin/MenuBuilderPage.jsx:267 | removing one element shortens the list by one |
| MenuBuilder.InsertAt | src/modules/superadmin/MenuBuilderPage.jsx:268 | inserting puts the element at the index and lengthens the list by one |
| MenuBuilder.RemoveInserted | src/modules/superadmin/MenuBuilderPage.jsx:267-268 | removing what was just inserted restores the list |
| MenuBuilder.InsertRemoved | src/modules/superadmin/MenuBuilderPage.jsx:267-268 | putting a removed element back where it was restores the list |
| MenuBuilder.RemoveMultiset | src/modules/superadmin/MenuBuilderPage.jsx:267 | a removal takes exactly that element out of the multiset |
| MenuBuilder.InsertMultiset | src/modules/superadmin/MenuBuilderPage.jsx:268 | an insertion adds exactly that element to the multiset |
| MenuBuilder.ArrayMove | src/modules/superadmin/MenuBuilderPage.jsx:225 | `arrayMove` keeps the length |
| MenuBuilder.ArrayMoveSpec | src/modules/superadmin/MenuBuilderPage.jsx:225 | the moved element lands at the target, the others keep their order, and the result is a permutation |
| MenuBuilder.ArrayMoveInverse | src/modules/superadmin/MenuBuilderPage.jsx:225 | moving back undoes a move |
| MenuBuilder.TotalScreensAppend | src/modules/superadmin/MenuBuilderPage.jsx:316 | screen counts add up over concatenated module lists |
| MenuBuilder.TotalScreensUpdate | src/modules/superadmin/MenuBuilderPage.jsx:253-256 | replacing a module changes the screen count by the difference of the two modules' screens |
| MenuBuilder.TotalScreensRemove | src/modules/superadmin/MenuBuilderPage.jsx:267 | removing a module removes its screens from the count |
| MenuBuilder.TotalScreensInsert | src/modules/superadmin/MenuBuilderPage.jsx:296 | adding a module adds its screens to the count |
| MenuBuilder.TotalScreensArrayMove | src/modules/superadmin/MenuBuilderPage.jsx:225 | reordering modules keeps the screen count |
| MenuBuilder.CountFromSum | src/modules/superadmin/MenuBuilderPage.jsx:316 | the `reduce` adds one per module and one per screen to its start value |
| MenuBuilder.TotalMenusCount | src/modules/superadmin/MenuBuilderPage.jsx:316 | the counter is the number of modules plus the number of screens |
| MenuBuilder.FetchedMenu | src/modules/superadmin/MenuBuilderPage.jsx:159-166 | one module per fetched row, each processed in order |
| MenuBuilder.FetchedModule | src/modules/superadmin/MenuBuilderPage.jsx:160-165 | a module keeps its attributes and a truthy id, gets a truthy temporary id otherwise, and has its screens processed in order |
| MenuBuilder.FetchedScreen | src/modules/superadmin/MenuBuilderPage.jsx:163-164 | a screen keeps its attributes and a truthy id, and gets a truthy temporary id otherwise |
| MenuBuilder.FindIndex | src/modules/superadmin/MenuBuilderPage.jsx:223 | `findIndex` gives the first match, or -1 when nothing matches |
| MenuBuilder.HolderIndex | src/modules/superadmin/MenuBuilderPage.jsx:241-242 | the module found holds a screen with the id |
| MenuBuilder.ScreenIndex | src/modules/superadmin/MenuBuilderPage.jsx:248-249 | the index found is a screen of the module with the id |
| MenuBuilder.ScreenMoveWithinCounts | src/modules/superadmin/MenuBuilderPage.jsx:246-258 | reordering inside a module keeps the screen count |
| MenuBuilder.ScreenMoveAcrossCounts | src/modules/superadmin/MenuBuilderPage.jsx:260-269 | moving a screen to another module keeps the screen count |
| MenuBuilder.DragPreservesScreens | src/modules/superadmin/MenuBuilderPage.jsx:214-272 | a drag keeps the number of modules and of screens |
| MenuBuilder.DragPreservesTotal | src/modules/superadmin/MenuBuilderPage.jsx:214-316 | a drag never changes the page's counter |
| MenuBuilder.DragModuleLands | src/modules/superadmin/MenuBuilderPage.jsx:220-229 | dropping a module on another moves it to that module's place and keeps the other modules in order |
| MenuBuilder.DragScreenWithin | src/modules/superadmin/MenuBuilderPage.jsx:244-258 | a drop inside one module permutes its screens, puts the dragged one at the target place and leaves other modules alone |
| MenuBuilder.DragScreenAcross | src/modules/superadmin/MenuBuilderPage.jsx:259-270 | a drop on another module's screen takes the screen out of its module and inserts it before the target |
| MenuBuilder.SavedMenu | src/modules/superadmin/MenuBuilderPage.jsx:281-310 | an empty name changes nothing; only a new module lengthens the menu |
| MenuBuilder.SavedMenuEffect | src/modules/superadmin/MenuBuilderPage.jsx:283-310 | a save edits or appends the item under the form's name, adds one screen only when appending a screen, and leaves the other modules alone |
| MenuBuilder.SentId | src/modules/superadmin/MenuBuilderPage.jsx:183-191 | a temporary id is sent as undefined and any other truthy id as itself |
| MenuBuilder.ModulePayloadOf | src/modules/superadmin/MenuBuilderPage.jsx:182-197 | a module's payload has one entry per screen, in order |
| MenuBuilder.SavePayload | src/modules/superadmin/MenuBuilderPage.jsx:182-198 | the payload has one entry per module, in order |
| MenuBuilder.SavePayloadOrder | src/modules/superadmin/MenuBuilderPage.jsx:182-198 | entries carry their position as order index and their names, and screens without actions get the default ones |
| MenuBuilder.FetchedTempIdsNotSent | src/modules/superadmin/MenuBuilderPage.jsx:159-183 | a module fetched without an id is sent without one |
| MenuBuilder.FetchedIdsRoundTrip | src/modules/superadmin/MenuBuilderPage.jsx:159-187 | a module fetched with a real id is sent back with it, its name and its position |
| MenuBuilder.NewModuleSentWithoutId | src/modules/superadmin/MenuBuilderPage.jsx:275-312 | a module created from the page is sent last, without an id and without screens |
| MenuBuilder.DerivedPermissionsAllowSave | src/modules/superadmin/MenuBuilderPage.jsx:321-323 | a menu that lists the `menu-builder` screen gives the page the update permission |
| MenuBuilder.MenuBuilderPage.constructor | src/modules/superadmin/MenuBuilderPage.jsx:123-137 | an empty menu, loading, closed, nothing edited, an empty form |
| MenuBuilder.MenuBuilderPage.Total | src/modules/superadmin/MenuBuilderPage.jsx:316 | the counter is modules plus screens |
| MenuBuilder.MenuBuilderPage.FetchData | src/modules/superadmin/MenuBuilderPage.jsx:150-176 | an answer becomes the processed menu; a failure keeps the menu; loading ends |
| MenuBuilder.MenuBuilderPage.HandleDragEnd | src/modules/superadmin/MenuBuilderPage.jsx:214-272 | the menu becomes the drag's result |
| MenuBuilder.MenuBuilderPage.HandleCreateMenu | src/modules/superadmin/MenuBuilderPage.jsx:275-279 | the editor opens on a new module after the last, with an empty form |
| MenuBuilder.MenuBuilderPage.HandleSaveItem | src/modules/superadmin/MenuBuilderPage.jsx:281-313 | the menu becomes the saved menu; with a name the modal closes and the new menu's payload is sent |
| PendingConversations.ChatId | src/modules/admin/pending-conversations/PendingConversationsPage.jsx:80 | the chat number is `whatsapp` when present and `wa_id` otherwise |
| PendingConversations.SessionKeptIff | src/modules/admin/pending-conversations/PendingConversationsPage.jsx:67-82 | a session is queued exactly when it has a chat number whose digits are the digits of some lead's phone |
| PendingConversations.WaIdFallbackOnlyHere | src/modules/admin/pending-conversations/PendingConversationsPage.jsx:78-82 | a session with only `wa_id` matching a lead is queued here but dropped by the conversations page |
| PendingConversations.KeptSessions | src/modules/admin/pending-conversations/PendingConversationsPage.jsx:78-82 | exactly the sessions passing the lead test are kept |
| PendingConversations.KeptSessionsAppend | src/modules/admin/pending-conversations/PendingConversationsPage.jsx:78-82 | the queue keeps the sessions in their order: two runs of sessions keep what each run keeps, in turn |
| PendingConversations.EntryMessages | src/modules/admin/pending-conversations/PendingConversationsPage.jsx:107-156 | one conversation entry gives at most two messages |
| PendingConversations.StripAll | src/modules/admin/pending-conversations/PendingConversationsPage.jsx:107-156 | each message of the conversations page is taken without its extra fields, in order |
| PendingConversations.EntrySameRules | src/modules/admin/pending-conversations/PendingConversationsPage.jsx:107-156 | one entry flattens here as it does on the conversations page |
| PendingConversations.SameRulesAsConversationsPage | src/modules/admin/pending-conversations/PendingConversationsPage.jsx:107-156 | a whole conversation flattens here as it does on the conversations page |
| PendingConversations.FormatTimeAgo | src/modules/admin/pending-conversations/PendingConversationsPage.jsx:507-516 | no date reads `Unknown`, under a minute `Just now`, and under an hour the whole minutes followed by `min ago` |
| PendingConversations.HourLabels | src/modules/admin/pending-conversations/PendingConversationsPage.jsx:518-519 | from one hour to a day the label is the whole hours followed by `hour ago` for one hour and `hours ago` otherwise |
| PendingConversations.DayLabels | src/modules/admin/pending-conversations/PendingConversationsPage.jsx:520-523 | one whole day reads `Yesterday`, and more a count of whole days |
| PendingConversations.ToPending | src/modules/admin/pending-conversations/PendingConversationsPage.jsx:84-157 | a queued conversation carries the flattened messages, a non-empty name and `+` followed by the chat number as contact |
| PendingConversations.PendingOf | src/modules/admin/pending-conversations/PendingConversationsPage.jsx:78-158 | one queued conversation per kept session, in order |
| PendingConversations.ProductsOf | src/modules/admin/pending-conversations/PendingConversationsPage.jsx:64 | the product list holds each non-empty product interest of the leads once, in order of first appearance among the truthy interests |
| PendingConversations.PresentInterests | src/modules/admin/pending-conversations/PendingConversationsPage.jsx:64 | the truthy product interests are exactly those of some lead |
| PendingConversations.PresentInterestsAppend | src/modules/admin/pending-conversations/PendingConversationsPage.jsx:64 | the truthy interests are listed lead by lead: two runs of leads list the interests of each run in turn |
| PendingConversations.FilteredConversations | src/modules/admin/pending-conversations/PendingConversationsPage.jsx:174-181 | a conversation is listed exactly when it matches the search and the product; kept items stay in their input order (FilteredConversationsAppend) |
| PendingConversations.FilteredConversationsAppend | src/modules/admin/pending-conversations/PendingConversationsPage.jsx:174-181 | like `Array.prototype.filter`, it keeps order and multiplicity: filtering `a + b` gives the filtered `a` followed by the filtered `b` |
| PendingConversations.WithoutId | src/modules/admin/pending-conversations/PendingConversationsPage.jsx:206 | the approved conversation's id is removed and every other conversation kept; kept items stay in their input order (WithoutIdAppend) |
| PendingConversations.WithoutIdAppend | src/modules/admin/pending-conversations/PendingConversationsPage.jsx:206 | like `Array.prototype.filter`, it keeps order and multiplicity: filtering `a + b` gives the filtered `a` followed by the filtered `b` |
| PendingConversations.WithoutAbsentId | src/modules/admin/pending-conversations/PendingConversationsPage.jsx:206 | removing an id no conversation has changes nothing |
| PendingConversations.Initials | src/modules/admin/pending-conversations/PendingConversationsPage.jsx:222-225 | no name gives `?`; otherwise the upper-cased first letters of the first two non-empty space-separated words, as many letters as there are such words up to two |
| PendingConversations.WordHeadsAreFirstLetters | src/modules/admin/pending-conversations/PendingConversationsPage.jsx:224 | `map(n => n[0]).join('')` gives one letter per non-empty word, the word's first, in word order; empty words give nothing |
| Js.SplitJoin | src/modules/admin/pending-conversations/PendingConversationsPage.jsx:224 | `split(sep)` loses nothing: joining its parts with the separator gives the string back |
| PendingConversations.SplitAtFirstSpace | src/modules/admin/pending-conversations/PendingConversationsPage.jsx:225 | splitting at spaces peels off the first word |
| PendingConversations.TwoWordInitials | src/modules/admin/pending-conversations/PendingConversationsPage.jsx:225 | a two-word name gives the upper-cased first letters of both words |
| PendingConversations.DoubleSpaceSkipped | src/modules/admin/pending-conversations/PendingConversationsPage.jsx:225 | an empty word between two spaces adds no letter |
| PendingConversations.PendingPage.constructor | src/modules/admin/pending-conversations/PendingConversationsPage.jsx:14-24 | no conversations or products, nothing selected or being approved, the dialog closed |
| PendingConversations.PendingPage.Fetch | src/modules/admin/pending-conversations/PendingConversationsPage.jsx:52-166 | the sessions become the queued conversations under the leads' map (empty when the leads fail); the products follow the leads; a failed session request keeps the list |
| PendingConversations.PendingPage.ApproveClick | src/modules/admin/pending-conversations/PendingConversationsPage.jsx:183-186 | the conversation is held for approval and the dialog opens |
| PendingConversations.PendingPage.ConfirmApprove | src/modules/admin/pending-conversations/PendingConversationsPage.jsx:188-221 | a request goes out exactly when a conversation is held and a user id is known; only its success removes the conversation, clears a matching selection and closes the dialog |
| LeadDetails.SafeParse | src/modules/admin/conversations/LeadDetailsModal.jsx:9-18 | a string column is its parsed object or `{}` when it does not parse; an object is kept; a falsy column is `{}` |
| LeadDetails.DigitRun | src/modules/admin/conversations/LeadDetailsModal.jsx:90 | the longest run of digits at the start |
| LeadDetails.ScreenMatchAt | src/modules/admin/conversations/LeadDetailsModal.jsx:90 | a match of `screen_\d+_` at a position is the tag, one or more digits and an underscore |
| LeadDetails.FirstScreenMatch | src/modules/admin/conversations/LeadDetailsModal.jsx:90 | the leftmost match of the screen tag, or none anywhere |
| LeadDetails.DropScreenTag | src/modules/admin/conversations/LeadDetailsModal.jsx:90 | without a screen tag the key is kept; otherwise exactly the leftmost `screen_\d+_` match is cut out and the rest kept on both sides; the result is never longer |
| LeadDetails.DigitRunBefore | src/modules/admin/conversations/LeadDetailsModal.jsx:90 | the longest run of digits ending at a position |
| LeadDetails.DropTrailingNumber | src/modules/admin/conversations/LeadDetailsModal.jsx:90 | `_\d+$` is removed: the result is a prefix of the key, what goes is an underscore followed by at least one digit at the end, and whenever the key ends in an underscore followed by digits they are removed |
| LeadDetails.DigitRunCovers | src/modules/admin/conversations/LeadDetailsModal.jsx:90 | the digit run counted before a position covers every run of digits that ends there, so `\d+` is matched greedily |
| LeadDetails.UnderscoresToSpaces | src/modules/admin/conversations/LeadDetailsModal.jsx:90 | each underscore becomes a space and every other character stays |
| LeadDetails.Label | src/modules/admin/conversations/LeadDetailsModal.jsx:90 | a label has no underscore and is never longer than its key; it is the key without its screen tag, cut before a trailing underscore-and-digits exactly when there is one, with each remaining underscore read as a space |
| LeadDetails.ScreenTagExample | src/modules/admin/conversations/LeadDetailsModal.jsx:89-90 | `screen_0_Make_0` loses its tag to `Make_0` |
| LeadDetails.TrailingNumberExample | src/modules/admin/conversations/LeadDetailsModal.jsx:89-90 | `Make_0` loses its number to `Make` |
| LeadDetails.LabelExample | src/modules/admin/conversations/LeadDetailsModal.jsx:89-90 | `screen_0_Make_0` is labelled `Make` |
| LeadDetails.SpacesOnlyForUnderscores | src/modules/admin/conversations/LeadDetailsModal.jsx:90 | a text without underscores is kept |
| LeadDetails.PlainKeyIsItsLabel | src/modules/admin/conversations/LeadDetailsModal.jsx:90 | a key without underscores is its own label |
| LeadDetails.SpecRows | src/modules/admin/conversations/LeadDetailsModal.jsx:83-97 | every specification other than `flow_token` is shown, as its label and value, and no label has an underscore |
| LeadDetails.SpecRowsOnlyEntries | src/modules/admin/conversations/LeadDetailsModal.jsx:83-97 | nothing else is shown: every row is the label and value of a specification other than `flow_token` |
| LeadDetails.SpecRowsAppend | src/modules/admin/conversations/LeadDetailsModal.jsx:83-97 | the rows keep the order of the entries: two runs of entries give the rows of each run in turn |
| LeadDetails.DisplayPhone | src/modules/admin/conversations/LeadDetailsModal.jsx:64 | a phone is shown with exactly one added `+` unless it already starts with one; no phone shows nothing |
| LeadDetails.DisplayPhoneIdempotent | src/modules/admin/conversations/LeadDetailsModal.jsx:64 | formatting a shown phone again changes nothing |
| LeadDetails.DoublePlusKept | src/modules/admin/conversations/LeadDetailsModal.jsx:64 | `++91` keeps both plus signs, since only one is stripped before one is added |
| LeadDetails.KeepShown | src/modules/admin/conversations/LeadDetailsModal.jsx:120-121 | a card is shown exactly when its value is present and non-empty |
| LeadDetails.KeepShownAppend | src/modules/admin/conversations/LeadDetailsModal.jsx:62-67 | the cards keep their order: two runs of cards show what each run shows, in turn |
| LeadDetails.Cards | src/modules/admin/conversations/LeadDetailsModal.jsx:62-67 | at most the four info cards, all with a value; the phone card shows exactly when there is a phone |
| LeadDetails.CardsShown | src/modules/admin/conversations/LeadDetailsModal.jsx:62-67 | the email, company and status cards each show exactly when the value is present and non-empty, with that value |
| LeadDetails.Render | src/modules/admin/conversations/LeadDetailsModal.jsx:5-118 | nothing renders without a lead; the title is never empty; no specifications section without parsed details |
| NotesHistory.FindUser | src/modules/admin/conversations/NotesHistoryModal.jsx:14 | the first user whose id equals the note's id or its parsed number, or none when no user does |
| NotesHistory.FallbackName | src/modules/admin/conversations/NotesHistoryModal.jsx:13-15 | the stored name or `Agent`, never empty |
| NotesHistory.ResolveAgentName | src/modules/admin/conversations/NotesHistoryModal.jsx:9-16 | no id or no matching user gives the fallback; a match gives its full name or else its username |
| NotesHistory.UnmatchedNoteNamed | src/modules/admin/conversations/NotesHistoryModal.jsx:13-15 | a note whose author is not among the users is always shown under a non-empty name |
| NotesHistory.NumericStringFindsUser | src/modules/admin/conversations/NotesHistoryModal.jsx:14 | an id stored as the text `7` finds the user with the number 7 |
| Pagination.TotalPages | src/components/ui/Pagination.jsx:15 | at least one page; no items give one page; otherwise just enough pages of the size to hold every item |
| Pagination.CeilingBounds | src/components/ui/Pagination.jsx:15 | the rounded-up quotient is the least number of pages that holds every item |
| Pagination.HeadWindow | src/components/ui/Pagination.jsx:24-25 | near the start the bar shows pages 1 to 5, a gap and the last page, in increasing order with the gap hiding pages |
| Pagination.TailWindow | src/components/ui/Pagination.jsx:26-27 | near the end the bar shows page 1, a gap and the last five pages, well formed |
| Pagination.MiddleWindow | src/components/ui/Pagination.jsx:28-29 | in the middle the bar shows page 1, a gap, the current page between its neighbours, a gap and the last page, well formed |
| Pagination.PageItems | src/components/ui/Pagination.jsx:19-33 | up to seven pages are all listed; beyond that seven items from page 1 to the last; numbers increase, every gap hides pages, and the current page is always shown |
| Pagination.Range | src/components/ui/Pagination.jsx:41 | the shown range lies within the total; a page with items starts at its first item and shows a full page of them, or all that remain when fewer than a page are left; past the end it reads total-total |
| Pagination.Previous | src/components/ui/Pagination.jsx:48-49 | the previous button is disabled on the first page and otherwise goes one page back |
| Pagination.Next | src/components/ui/Pagination.jsx:73-75 | the next button is disabled exactly when this page reaches the total, and otherwise goes to the following page, which exists |
| Pagination.Click | src/components/ui/Pagination.jsx:59-60 | only a number is clickable, and it goes to that page, 0-based |
| UsersPage.FindSuperAdmin | src/modules/admin/users/UsersPage.jsx:50 | the role found is named `super admin` after trimming and lower-casing, and none is found only when no role is |
| UsersPage.FirstSuperAdminFound | src/modules/admin/users/UsersPage.jsx:50 | the first such role is found |
| UsersPage.UserRoleId | src/modules/admin/users/UsersPage.jsx:57 | the user's role id is `roleId`, else the role object's id, else the bare role value |
| UsersPage.ListedUsers | src/modules/admin/users/UsersPage.jsx:53-67 | exactly the users passing the soft-delete and super-admin tests are listed |
| UsersPage.ListedUsersAppend | src/modules/admin/users/UsersPage.jsx:53-67 | the listing keeps the users in their order: two runs of users list what each run lists, in turn |
| UsersPage.ActiveUsers | src/modules/admin/users/UsersPage.jsx:71 | exactly the users not soft-deleted are kept; kept items stay in their input order (ActiveUsersAppend) |
| UsersPage.ActiveUsersAppend | src/modules/admin/users/UsersPage.jsx:71 | like `Array.prototype.filter`, it keeps order and multiplicity: filtering `a + b` gives the filtered `a` followed by the filtered `b` |
| UsersPage.FilterUsers | src/modules/admin/users/UsersPage.jsx:49-73 | no deleted user is listed; without users nothing; with roles the role test decides; without roles only deletion does |
| UsersPage.SuperAdminUsersHidden | src/modules/admin/users/UsersPage.jsx:59-61 | a user whose parsed role id is the super-admin role's is hidden |
| UsersPage.CapitalisedNameNormalized | src/modules/admin/users/UsersPage.jsx:50 | `Super Admin` is recognised after normalising |
| UsersPage.ThreeParsed | src/modules/admin/users/UsersPage.jsx:60 | `parseInt` reads `3` as 3 and the number 3 prints as `3` |
| UsersPage.StringRoleIdHidden | src/modules/admin/users/UsersPage.jsx:57-61 | a user whose role id is the text `3` is hidden when the super-admin role has the number 3 |
| UsersPage.OfferedRoles | src/modules/admin/users/UsersPage.jsx:86-90 | exactly the roles that are neither super admin nor the current role are offered |
| UsersPage.OfferedRolesAppend | src/modules/admin/users/UsersPage.jsx:86-90 | the dropdown keeps the roles in their order: two runs of roles offer what each run offers, in turn |
| UsersPage.RoleOptions | src/modules/admin/users/UsersPage.jsx:75-94 | the dialog offers roles exactly when the roles came as an array, and then exactly those other than super admin and the current role |
| UsersPage.SliceFrom | src/modules/admin/users/UsersPage.jsx:29 | `slice` gives the elements from the start index, at most up to the end index, and something whenever the start is inside the list |
| UsersPage.PageOf | src/modules/admin/users/UsersPage.jsx:27-29 | a page holds at most the page size of consecutive users starting at its first index, and is non-empty when that index exists |
| UsersPage.UserOnItsPage | src/modules/admin/users/UsersPage.jsx:27-29 | every user appears on its page, at its offset |
| UsersPage.FindRole | src/modules/admin/users/UsersPage.jsx:175 | the role found has a matching id, and none is found when no role's id matches |
| UsersPage.RoleName | src/modules/admin/users/UsersPage.jsx:172-177 | no role id reads `N/A`, an unknown one `Unknown`, and a known one the role's name |
| UsersPage.UsersPageState.constructor | src/modules/admin/users/UsersPage.jsx:10-24 | no users, empty role lists, first page of ten |
| UsersPage.UsersPageState.Load | src/modules/admin/users/UsersPage.jsx:38-95 | the users become the filtered users, the dialog's roles the offered roles and all roles the answer; the page stays |
| UsersPage.UsersPageState.PageChange | src/modules/admin/users/UsersPage.jsx:330 | the bar's 0-based page becomes the 1-based current page |
| UsersPage.UsersPageState.PageSizeChange | src/modules/admin/users/UsersPage.jsx:331-334 | a new page size goes back to the first page |
| UsersPage.UsersPageState.CurrentUsers | src/modules/admin/users/UsersPage.jsx:26-29 | the table shows at most a page of users, none of them deleted |
| UsersPage.UsersPageState.Render | src/modules/admin/users/UsersPage.jsx:30 | every render stops on the undefined `itemsPerPage` |
| ProfilePage.PasswordError | src/modules/admin/profile/ProfilePage.jsx:102-109 | no error exactly when the new password has at least six characters and equals the confirmation; the length error exactly when it is shorter; the mismatch error exactly when it is long enough but differs |
| ProfilePage.LengthCheckedFirst | src/modules/admin/profile/ProfilePage.jsx:102-109 | a short password that also mismatches reports the length error |
| ProfilePage.PasswordDialog.constructor | src/modules/admin/profile/ProfilePage.jsx:24-28 | the dialog starts closed with three empty password fields |
| ProfilePage.PasswordDialog.UpdatePassword | src/modules/admin/profile/ProfilePage.jsx:100-126 | a failed check sends nothing and changes nothing; otherwise the profile email and new password are sent; success clears the fields and closes the dialog, failure keeps both and shows the error or the fallback message |
| ProfilePage.ProfileInitials | src/modules/admin/profile/ProfilePage.jsx:136 | an empty name gives "U"; otherwise the upper-cased first letters of the first two non-empty space-separated words, as many letters as there are such words up to two |
| ProfilePage.TakeUpper | src/modules/admin/profile/ProfilePage.jsx:136 | upper-casing commutes with taking a prefix, so the order of the last two steps does not matter |
| ProfilePage.SameInitialsAsConversations | src/modules/admin/profile/ProfilePage.jsx:136 | for a non-empty name the profile avatar shows the same initials as the pending conversation list |
| ProfilePage.EmptyNameDiffers | src/modules/admin/profile/ProfilePage.jsx:136 | for an empty name the profile shows "U" where the conversation list shows "?" |
| LoginPage.RegisterError | src/modules/auth/LoginPage.jsx:60-65 | registration passes exactly when the passwords match and the terms are accepted; a mismatch is reported first, then missing terms |
| LoginPage.MismatchBeforeTerms | src/modules/auth/LoginPage.jsx:60-65 | a mismatch is reported even when the terms are also unaccepted |
| LoginPage.UsernameOf | src/modules/auth/LoginPage.jsx:68 | the generated username is the longest prefix of the email without an "@", followed in the email by the first "@" or its end |
| LoginPage.LocalPartIsUsername | src/modules/auth/LoginPage.jsx:68 | the username of local@domain is local |
| LoginPage.LoginForm.constructor | src/modules/auth/LoginPage.jsx:22-34 | the page starts in sign-in mode, with no error and an empty form |
| LoginPage.LoginForm.SetText | src/modules/auth/LoginPage.jsx:36-42 | a text input changes its own field only |
| LoginPage.LoginForm.SetAgree | src/modules/auth/LoginPage.jsx:36-42 | the terms checkbox stores its checked state and nothing else |
| LoginPage.LoginForm.Submit | src/modules/auth/LoginPage.jsx:44-82 | sign-in navigates back on success or shows the refusal or thrown message; registration sends the account only when both checks pass, with the username from the email, then switches to sign-in on creation or shows the error |
| LoginPage.LoginForm.ToggleMode | src/modules/auth/LoginPage.jsx:306-310 | the mode flips, the error clears and both password fields are emptied, the rest of the form kept |
| PhoneInput.MaxDigits | src/components/ui/phone-input.jsx:83 | the national-digit cap of a listed country, and 15 for any other, always between 8 and 15 |
| PhoneInput.Sanitize | src/components/ui/phone-input.jsx:67 | the cleaned value is no longer than the typed one and holds only digits, plus signs and white space |
| PhoneInput.WithPlus | src/components/ui/phone-input.jsx:70-76 | the value always starts with a plus: kept when it has one, a leading 00 replaced by it, otherwise prefixed |
| PhoneInput.Normalize | src/components/ui/phone-input.jsx:64-76 | the cleaned value starts with a plus and holds only phone characters |
| PhoneInput.NormalizeIdempotent | src/components/ui/phone-input.jsx:64-76 | cleaning an already cleaned value changes nothing |
| PhoneInput.SanitizeKeepsDigits | src/components/ui/phone-input.jsx:67 | removing foreign characters keeps every digit, in order |
| PhoneInput.PlusAddsNoDigit | src/components/ui/phone-input.jsx:74 | the added plus adds no digit |
| PhoneInput.ZerosAreDigits | src/components/ui/phone-input.jsx:71-72 | the two zeros replaced by the plus are the only digits lost |
| PhoneInput.NormalizeDigits | src/components/ui/phone-input.jsx:64-76 | the cleaned value keeps the typed digits, except for a leading 00 turned into a plus |
| PhoneInput.Fallback | src/components/ui/phone-input.jsx:113-131 | without a country, or when the parser throws, a value with more than 15 digits is dropped and any other is passed on unchanged with no country |
| PhoneInput.Emit | src/components/ui/phone-input.jsx:87-89 | the emitted value is a plus, the calling code and the national number cut to the cap |
| PhoneInput.CountryChange | src/components/ui/phone-input.jsx:81-111 | with a country, the value passed on is a plus, a calling code and a national number of at most the country's cap, reported with that country |
| PhoneInput.PhoneChange | src/components/ui/phone-input.jsx:63-131 | a keystroke either takes the country path, emitting a capped number with the parsed country, or the fallback path |
| PhoneInput.NationalCapped | src/components/ui/phone-input.jsx:86-90 | whatever the parser answers, an emitted number with a country has no more national digits than the country's cap |
| PhoneInput.SixteenDigitsWithoutCountryDropped | src/components/ui/phone-input.jsx:113-115 | a 16-digit value with no number found is dropped |
| PhoneInput.PhoneField.constructor | src/components/ui/phone-input.jsx:25-26 | the field starts with no country and no flag |
| PhoneInput.PhoneField.WithoutCountry | src/components/ui/phone-input.jsx:113-121 | a dropped value changes nothing; otherwise the value is passed on, the flag and country cleared and no country reported |
| PhoneInput.PhoneField.NormalizeInput | src/components/ui/phone-input.jsx:64-76 | the two cleaning steps compute the cleaned value |
| PhoneInput.PhoneField.WithCountry | src/components/ui/phone-input.jsx:81-111 | the change the country path computes is applied: value passed on, country looked up and reported, flag cleared and scheduled |
| PhoneInput.PhoneField.HandlePhoneChange | src/components/ui/phone-input.jsx:63-132 | the change a keystroke computes is applied to the field and reported to the callbacks |
| PhoneInput.PhoneField.RunTimer | src/components/ui/phone-input.jsx:96-98 | the zero-delay timer shows the scheduled flag, if any, and nothing else changes |
| MetricsGrid.Part | src/modules/admin/dashboard/MetricsGrid.jsx:14-50 | a missing prop reads as one with every part missing |
| MetricsGrid.Text | src/modules/admin/dashboard/MetricsGrid.jsx:14 | a present, non-empty string is shown; a missing or empty one gives the fallback |
| MetricsGrid.Flag | src/modules/admin/dashboard/MetricsGrid.jsx:17 | a present trend direction is kept, even false; only a missing one takes the default |
| MetricsGrid.Cards | src/modules/admin/dashboard/MetricsGrid.jsx:11-55 | four cards in fixed order with their fallback values, trends and directions; only the contacts card is clickable, has a comparison, and has a sparkline exactly when its value is non-empty |
| MetricsGrid.NoDataFallbacks | src/modules/admin/dashboard/MetricsGrid.jsx:11-55 | with no data each card shows its fallback, and only the cost card's trend points down |
| MetricsGrid.FalseTrendKeptEmptyValueReplaced | src/modules/admin/dashboard/MetricsGrid.jsx:14-21 | an explicit false trend is kept while an empty value falls back to "0" and hides the sparkline |
| LegacyMetricsGrid.Override | src/components/admin/dashboard/MetricsGrid.jsx:74-102 | a mapped card takes the prop's non-empty value, trend and, where mapped, comparison, and a present direction; title and sparkline stay |
| LegacyMetricsGrid.Metrics | src/components/admin/dashboard/MetricsGrid.jsx:71-106 | six cards in default order; the delivery and AI cards keep their defaults; the cost and response-time cards ignore the prop's comparison |
| LegacyMetricsGrid.CostComparisonIgnored | src/components/admin/dashboard/MetricsGrid.jsx:89-95 | the cost card's comparison stays empty whatever the prop says |
| LegacyMetricsGrid.NoDataIsDefaults | src/components/admin/dashboard/MetricsGrid.jsx:5-67 | with no data the grid is exactly the default cards |
| WhatsAppChat.FormatPhoneNumber | src/components/WhatsAppChat.jsx:45-48 | a number starting with 91 is grouped as +91 and three, three and the remaining digits; any other is shown unchanged |
| WhatsAppChat.Compact | src/components/WhatsAppChat.jsx:45-48 | removing spaces and plus signs never lengthens a string |
| WhatsAppChat.CompactAppend | src/components/WhatsAppChat.jsx:45-48 | removing spaces and plus signs works piece by piece |
| WhatsAppChat.CompactPlain | src/components/WhatsAppChat.jsx:45-48 | a string with no spaces or plus signs is unchanged |
| WhatsAppChat.CompactGrouped | src/components/WhatsAppChat.jsx:47 | the grouped form reduces to 91 followed by the groups |
| WhatsAppChat.FormatKeepsDigits | src/components/WhatsAppChat.jsx:45-48 | formatting adds only spaces and a plus: removing them gives back the number |
| WhatsAppChat.IndianNumberGrouped | src/components/WhatsAppChat.jsx:45-48 | 919876543210 is shown as +91 987 654 3210 |
| WhatsAppChat.InitialSelection | src/components/WhatsAppChat.jsx:22-24 | the first phone number is selected after loading; none when there is none or it is empty |
| WhatsAppChat.CurrentMessages | src/components/WhatsAppChat.jsx:36 | with nothing selected the list is empty; otherwise it is the selected number's messages |
| WhatsAppChat.LoadedShowsFirstList | src/components/WhatsAppChat.jsx:22-36 | after loading the first number's messages are shown, or none when there are no conversations |
| ContactsPage.CountStatus | src/modules/admin/contacts/ContactsPage.jsx:93-95 | a status counter is at most the page length; it is zero exactly when no contact has that status and the page length exactly when all have it |
| ContactsPage.CountersPartitionPage | src/modules/admin/contacts/ContactsPage.jsx:93-95 | the valid, invalid and blocked counters plus the contacts with any other status add up to the page length |
| ContactsPage.CountersBoundedByPage | src/modules/admin/contacts/ContactsPage.jsx:93-95 | the three counters together never exceed the fetched page |
| ContactsPage.ListOf | src/modules/admin/contacts/ContactsPage.jsx:85 | the list is `data.contacts`, or empty when the response has none |
| ContactsPage.StatsOf | src/modules/admin/contacts/ContactsPage.jsx:93-102 | the counters are taken over the fetched page only; the total is `data.total` when it is present and non-zero, else the page length |
| ContactsPage.ZeroTotalFallsBack | src/modules/admin/contacts/ContactsPage.jsx:98 | a reported total of 0 is replaced by the page length, so a non-empty page never shows a zero total |
| ContactsPage.AddRequest | src/modules/admin/contacts/ContactsPage.jsx:134-140 | nothing is sent exactly when the phone is blank after trimming; otherwise the phone is sent as typed and the name is sent exactly when it is non-empty |
| ContactsPage.SpacesOnlyPhoneNotSent | src/modules/admin/contacts/ContactsPage.jsx:135 | a phone of spaces only sends nothing |
| ContactsPage.AllContactsTab.constructor | src/modules/admin/contacts/ContactsPage.jsx:70-78 | the tab starts on page 0 with no contacts, zero stats, an empty add form and the modal closed |
| ContactsPage.AllContactsTab.Offset | src/modules/admin/contacts/ContactsPage.jsx:79-84 | the offset asked for is a multiple of the page size 20 whose quotient is the page index |
| ContactsPage.AllContactsTab.Loaded | src/modules/admin/contacts/ContactsPage.jsx:84-102 | a fetch that answers replaces the list and the stats and nothing else |
| ContactsPage.AllContactsTab.FetchFailed | src/modules/admin/contacts/ContactsPage.jsx:103-105 | a fetch that throws empties the list and keeps the stats |
| ContactsPage.AllContactsTab.Previous | src/modules/admin/contacts/ContactsPage.jsx:303 | Previous lowers the page by one and never below 0 |
| ContactsPage.AllContactsTab.Next | src/modules/admin/contacts/ContactsPage.jsx:305 | Next raises the page by one only while at least 20 contacts were fetched; with fewer it is disabled and nothing changes |
| ContactsPage.AllContactsTab.EditNewContact | src/modules/admin/contacts/ContactsPage.jsx:77 | editing the add form changes only the form |
| ContactsPage.AllContactsTab.AddContact | src/modules/admin/contacts/ContactsPage.jsx:134-148 | the request sent is `AddRequest` of the form; a success clears the form and closes the modal; a blank phone or a failed call changes nothing |
| ContactsPage.UpperCaseExtensionRefused | src/modules/admin/contacts/ContactsPage.jsx:370 | `.csv` and `.xlsx` names are accepted by a drop, and the extension test is case-sensitive (`.CSV` is refused) |
| ContactsPage.UploadTab.constructor | src/modules/admin/contacts/ContactsPage.jsx:351-355 | the upload starts at step 1 with no file and no result |
| ContactsPage.UploadTab.HandleDrop | src/modules/admin/contacts/ContactsPage.jsx:366-374 | a dropped file whose name ends in `.csv` or `.xlsx` is taken and moves to step 2; anything else leaves the step and the file unchanged |
| ContactsPage.UploadTab.HandleFileSelect | src/modules/admin/contacts/ContactsPage.jsx:375-378 | any selected file is taken and moves to step 2, without the extension test |
| ContactsPage.UploadTab.Continue | src/modules/admin/contacts/ContactsPage.jsx:492 | Continue moves from step 2 to step 3 and keeps the file |
| ContactsPage.UploadTab.Back | src/modules/admin/contacts/ContactsPage.jsx:504 | Back moves from step 3 to step 2 and keeps the file |
| ContactsPage.UploadTab.HandleUpload | src/modules/admin/contacts/ContactsPage.jsx:380-395 | without a file nothing happens; a successful import stores its result and moves to step 4; a failed one changes nothing; every step past 1 holds a file and step 4 holds a result |
| ContactsPage.UploadTab.ResetUpload | src/modules/admin/contacts/ContactsPage.jsx:397 | reset returns to step 1 with no file and no result |
| ContactsPage.SuccessRate | src/modules/admin/contacts/ContactsPage.jsx:680 | the rate is 0 without records; otherwise it is the nearest whole percentage of successes, halves rounded up |
| ContactsPage.RateAtMostHundred | src/modules/admin/contacts/ContactsPage.jsx:680 | no more successes than records gives at most 100 |
| ContactsPage.RateExamples | src/modules/admin/contacts/ContactsPage.jsx:680 | all records imported is 100, none is 0, and one in eight (12.5%) rounds up to 13 |
| KnowledgeBase.Filtered | src/components/admin/KnowledgeBasePage.jsx:56-60 | an entry is kept exactly when its title, content or url contains the query ignoring case; a missing field never matches; kept items stay in their input order (FilteredAppend) |
| KnowledgeBase.FilteredAppend | src/components/admin/KnowledgeBasePage.jsx:56-60 | like `Array.prototype.filter`, it keeps order and multiplicity: filtering `a + b` gives the filtered `a` followed by the filtered `b` |
| KnowledgeBase.Shown | src/components/admin/KnowledgeBasePage.jsx:56-69 | the list shown is a permutation of the matching entries, sorted by creation date, newest first for `'newest'` and oldest first for any other order |
| KnowledgeBase.EmptyQueryNeedsAField | src/components/admin/KnowledgeBasePage.jsx:56-60 | with an empty query an entry is shown exactly when it has a title, a content or a url |
| KnowledgeBase.WithoutEntry | src/components/admin/KnowledgeBasePage.jsx:89 | a delete removes exactly the entries with that id, keeps all others, and changes nothing when the id is absent; kept items stay in their input order (WithoutEntryAppend) |
| KnowledgeBase.WithoutEntryAppend | src/components/admin/KnowledgeBasePage.jsx:89 | like `Array.prototype.filter`, it keeps order and multiplicity: filtering `a + b` gives the filtered `a` followed by the filtered `b` |
| KnowledgeBase.CategoriesOf | src/components/admin/KnowledgeBasePage.jsx:43-44 | the category list holds each non-empty category of the fetched entries once, in order of first appearance, and nothing when the response has no entries |
| KnowledgeBase.TruthyCategoriesAppend | src/components/admin/KnowledgeBasePage.jsx:43-44 | the truthy categories are listed entry by entry: two runs of entries list the categories of each run in turn |
| KnowledgeBase.CountedIffPresent | src/components/admin/KnowledgeBasePage.jsx:126-134 | a category's counter is positive exactly when some entry carries it |
| KnowledgeBase.CountsAtMostEntries | src/components/admin/KnowledgeBasePage.jsx:126-134 | the counters of all listed categories add up to at most the number of entries, since entries without a category are not counted |
| KnowledgeBase.SumCountsIsCountIn | src/components/admin/KnowledgeBasePage.jsx:126-134 | over distinct categories the counters add up to the number of entries in one of them |
| KnowledgeBase.CountedAreListed | src/components/admin/KnowledgeBasePage.jsx:126-134 | the categories that get a counter are exactly those of the category list |
| KnowledgeBase.KnowledgeBaseState.constructor | src/components/admin/KnowledgeBasePage.jsx:10-18 | the page starts with no entries, total 0, no categories, an empty query and `'newest'` order |
| KnowledgeBase.KnowledgeBaseState.Visible | src/components/admin/KnowledgeBasePage.jsx:56-69 | the cards rendered are the entries matching the current query, sorted in the current order |
| KnowledgeBase.KnowledgeBaseState.Loaded | src/components/admin/KnowledgeBasePage.jsx:36-44 | a fetch stores `data.entries` or nothing, `data.total` or 0, and the category list |
| KnowledgeBase.KnowledgeBaseState.Delete | src/components/admin/KnowledgeBasePage.jsx:84-95 | a successful delete removes that id and lowers the total by one; a failed one changes nothing |
| KnowledgeBase.KnowledgeBaseState.CategoryCounts | src/components/admin/KnowledgeBasePage.jsx:126-134 | the counters cover exactly the non-empty categories present, each holding the number of entries that carry it |
| KnowledgeBase.CountCategories | src/components/admin/KnowledgeBasePage.jsx:127-133 | the `forEach` that increments the counters computes exactly those counts |
| KnowledgeGroups.Filtered | src/modules/admin/knowledge-base/KnowledgeBasePage.jsx:51-55 | a group is kept exactly when its title, content preview or url contains the query ignoring case; kept items stay in their input order (FilteredAppend) |
| KnowledgeGroups.FilteredAppend | src/modules/admin/knowledge-base/KnowledgeBasePage.jsx:51-55 | like `Array.prototype.filter`, it keeps order and multiplicity: filtering `a + b` gives the filtered `a` followed by the filtered `b` |
| KnowledgeGroups.Shown | src/modules/admin/knowledge-base/KnowledgeBasePage.jsx:51-64 | the list shown is a permutation of the matching groups, newest first for `'newest'` and oldest first otherwise |
| KnowledgeGroups.OrdersOpposite | src/modules/admin/knowledge-base/KnowledgeBasePage.jsx:58-64 | two shown groups with different dates appear in opposite orders under `'newest'` and `'oldest'` |
| KnowledgeGroups.WithoutGroup | src/modules/admin/knowledge-base/KnowledgeBasePage.jsx:72 | removing a group id keeps exactly the groups with another id, and changes nothing when the id is absent; kept items stay in their input order (WithoutGroupAppend) |
| KnowledgeGroups.WithoutGroupAppend | src/modules/admin/knowledge-base/KnowledgeBasePage.jsx:72 | like `Array.prototype.filter`, it keeps order and multiplicity: filtering `a + b` gives the filtered `a` followed by the filtered `b` |
| KnowledgeGroups.CategoriesOf | src/modules/admin/knowledge-base/KnowledgeBasePage.jsx:38-40 | the category list holds each non-empty category of the fetched groups once, in order of first appearance, and nothing when the response has no groups |
| KnowledgeGroups.TruthyCategoriesAppend | src/modules/admin/knowledge-base/KnowledgeBasePage.jsx:38-40 | the truthy categories are listed group by group: two runs of groups list the categories of each run in turn |
| KnowledgeGroups.KnowledgeGroupsState.constructor | src/modules/admin/knowledge-base/KnowledgeBasePage.jsx:13-19 | the page starts with no groups, total 0, no categories, an empty query and `'newest'` order |
| KnowledgeGroups.KnowledgeGroupsState.Visible | src/modules/admin/knowledge-base/KnowledgeBasePage.jsx:51-64 | the cards rendered are the groups matching the current query in the current order |
| KnowledgeGroups.KnowledgeGroupsState.Loaded | src/modules/admin/knowledge-base/KnowledgeBasePage.jsx:34-40 | a fetch stores `data.groups` or nothing, `data.total_groups` or 0, and the category list |
| KnowledgeGroups.KnowledgeGroupsState.RemoveOptimistically | src/modules/admin/knowledge-base/KnowledgeBasePage.jsx:70-73 | before the call the list is snapshotted, the group removed and the total lowered by one |
| KnowledgeGroups.KnowledgeGroupsState.Rollback | src/modules/admin/knowledge-base/KnowledgeBasePage.jsx:77-80 | the rollback restores the snapshot exactly and raises the total by one |
| KnowledgeGroups.KnowledgeGroupsState.Delete | src/modules/admin/knowledge-base/KnowledgeBasePage.jsx:67-84 | a successful delete leaves the group removed and the total one lower; a failed one leaves no net change to the list or the total |
| KnowledgeDrawer.SplitRuns | src/components/admin/knowledge-base/KnowledgeDrawer.jsx:15 | the split yields at least one piece, no piece holds `.`, `!` or `?`, and a text without them is its own single piece |
| KnowledgeDrawer.SplitReassembles | src/components/admin/knowledge-base/KnowledgeDrawer.jsx:15 | the pieces laid end to end are the text with its sentence marks removed, in order |
| KnowledgeDrawer.NonBlankPieces | src/components/admin/knowledge-base/KnowledgeDrawer.jsx:15 | a piece is kept exactly when it is a piece of the split and not blank |
| KnowledgeDrawer.NonBlankPiecesAppend | src/components/admin/knowledge-base/KnowledgeDrawer.jsx:15 | the filter keeps the pieces in order: two runs of pieces keep what each run keeps, in turn |
| KnowledgeDrawer.ContentOf | src/components/admin/knowledge-base/KnowledgeDrawer.jsx:58-60 | the drawer reads `content_full` when it is non-empty and `content` otherwise |
| KnowledgeDrawer.Overview | src/components/admin/knowledge-base/KnowledgeDrawer.jsx:13-17 | a missing or empty text gives `'No content available.'`; every overview ends with a full stop |
| KnowledgeDrawer.OverviewFirstThree | src/components/admin/knowledge-base/KnowledgeDrawer.jsx:13-17 | three non-blank sentences each closed by one mark, followed by any text that does not start with a mark, give those three sentences joined by `'. '`, trimmed, with a closing full stop |
| KnowledgeDrawer.OverviewHasOnlyFullStops | src/components/admin/knowledge-base/KnowledgeDrawer.jsx:15-16 | no `!` or `?` is left in an overview |
| KnowledgeDrawer.SingleSentence | src/components/admin/knowledge-base/KnowledgeDrawer.jsx:15-16 | a non-blank text without sentence marks gives itself, trimmed, plus `.` |
| KnowledgeDrawer.MarksOnly | src/components/admin/knowledge-base/KnowledgeDrawer.jsx:15-16 | a text of sentence marks only gives the overview `.` |
| KnowledgeDrawer.WordAt | src/components/admin/knowledge-base/KnowledgeDrawer.jsx:23 | a word found is a capital followed by at least one letter and ends where no word character follows |
| KnowledgeDrawer.TopicAt | src/components/admin/knowledge-base/KnowledgeDrawer.jsx:23 | a match found at a position is one or two capitalised words separated by white space |
| KnowledgeDrawer.Topics | src/components/admin/knowledge-base/KnowledgeDrawer.jsx:23 | every match of the topic pattern is a capitalised word or pair of words |
| KnowledgeDrawer.KeyTopics | src/components/admin/knowledge-base/KnowledgeDrawer.jsx:20-26 | no text gives no topics; otherwise `['General Information']` exactly when there is no match, and else the first eight distinct matches in order of first appearance (all of them when there are fewer) |
| KnowledgeDrawer.TopicsAreCapitalised | src/components/admin/knowledge-base/KnowledgeDrawer.jsx:23-25 | every topic listed for a text with matches is a capitalised word or pair of words |
| KnowledgeDrawer.PairThenSingle | src/components/admin/knowledge-base/KnowledgeDrawer.jsx:23 | `Ab Cd Ef` gives the topics `Ab Cd` and `Ef`: the optional second word is taken greedily |
| KnowledgeDrawer.DigitBreaksTopic | src/components/admin/knowledge-base/KnowledgeDrawer.jsx:23 | a capitalised word followed by a digit is no topic, because the closing word boundary fails |
| KnowledgeDrawer.Kept | src/components/admin/knowledge-base/KnowledgeDrawer.jsx:36-40 | every capture kept is trimmed and longer than two characters, and every present capture longer than two characters once trimmed is kept |
| KnowledgeDrawer.KeptAppend | src/components/admin/knowledge-base/KnowledgeDrawer.jsx:36-40 | the captures are kept in the order of the matches: two runs of captures keep what each run keeps, in turn |
| KnowledgeDrawer.KeptAll | src/components/admin/knowledge-base/KnowledgeDrawer.jsx:34-41 | every capture kept over all patterns is trimmed and longer than two characters, and every such capture of every pattern is kept |
| KnowledgeDrawer.KeptAllAppend | src/components/admin/knowledge-base/KnowledgeDrawer.jsx:34-41 | the captures are collected pattern by pattern: two runs of patterns give the captures of each run in turn |
| KnowledgeDrawer.Services | src/components/admin/knowledge-base/KnowledgeDrawer.jsx:29-44 | no text gives no services; otherwise the first six distinct kept captures in order of first appearance (all of them when there are fewer), each trimmed and longer than two characters |
| KnowledgeDrawer.ShortCaptureDropped | src/components/admin/knowledge-base/KnowledgeDrawer.jsx:37 | a capture of two letters padded with spaces is not kept |
| KnowledgeDrawer.ExtractServices | src/components/admin/knowledge-base/KnowledgeDrawer.jsx:29-44 | the nested loops push exactly the captures `Services` lists before de-duplication, and the result is `Services` |
| KnowledgeDrawer.PushKept | src/components/admin/knowledge-base/KnowledgeDrawer.jsx:35-40 | the inner loop appends exactly the kept captures of one pattern, in order |
| KnowledgeDrawer.CategoryColor | src/components/admin/knowledge-base/KnowledgeDrawer.jsx:47-56 | Cloud, Security, Backup and Docs have their own colour; any other or missing category is `bg-gray-500` |
| KnowledgeDrawer.Drawer | src/components/admin/knowledge-base/KnowledgeDrawer.jsx:10-60 | nothing is rendered exactly when there is no entry; otherwise the overview, topics and services all read the same text |
| KnowledgeDrawer.EmptyEntryPlaceholders | src/components/admin/knowledge-base/KnowledgeDrawer.jsx:13-44 | an entry with no text shows the placeholder overview and neither topics nor services |
| FormsPage.Filtered | src/modules/admin/forms/FormsPage.jsx:42-48 | a form is kept exactly when its name, or its non-empty description, contains the query ignoring case and the status filter is `'all'` or equals its status; kept items stay in their input order (FilteredAppend) |
| FormsPage.FilteredAppend | src/modules/admin/forms/FormsPage.jsx:42-48 | like `Array.prototype.filter`, it keeps order and multiplicity: filtering `a + b` gives the filtered `a` followed by the filtered `b` |
| FormsPage.NameLeTotal | src/modules/admin/forms/FormsPage.jsx:52 | any two names compare one way or the other |
| FormsPage.SortByName | src/modules/admin/forms/FormsPage.jsx:52 | the name sort is a permutation sorted by name |
| FormsPage.SortByNameStable | src/modules/admin/forms/FormsPage.jsx:52 | the name sort is stable: forms sharing a name keep their relative order |
| FormsPage.Shown | src/modules/admin/forms/FormsPage.jsx:42-54 | the list is a permutation of the kept forms: newest first for `'newest'`, oldest first for `'oldest'`, by name for `'name'`, and in filtered order for any other key |
| FormsPage.ListedIffKept | src/modules/admin/forms/FormsPage.jsx:42-48 | a form is listed exactly when it passes both tests, whatever the sort key |
| FormsPage.ClearFilters | src/modules/admin/forms/FormsPage.jsx:230 | clearing resets the query to `''` and the status to `'all'` and keeps the sort key |
| FormsPage.ClearedListsEveryForm | src/modules/admin/forms/FormsPage.jsx:230 | after clearing every fetched form is listed again |
| FormsPage.UnknownKeyKeepsOrder | src/modules/admin/forms/FormsPage.jsx:53 | under an unknown sort key the forms keep their fetched order |

## Left out

- Network, WebSocket, timers and browser storage are not modelled. Each server answer, each failed call and each value read from `localStorage` is a parameter.
- Busy flags are modelled where a modelled operation sets them: `loading` of the conversations page, the layout, the menu builder and role management, `saving` and `publishing` of the form builder, `loading` and `submitting` of the form slice, and the close-chat dialog's `loading` as a parameter. The other pages' loading, saving and spinner flags are not modelled.
- Numbers are mathematical integers; floating point is not modelled. Averages, percentages and cost sums that are fractional in the source are modelled only where they are whole. Rounding is written out where the source rounds. `NaN` appears only as the failure of a number conversion.
- Dates are integers supplied by the caller: milliseconds or minutes, a day of the week or an hour. Date parsing is not modelled, nor the sort position of an invalid date. The display formatters (`formatDate`, `formatTime`, `toLocaleTimeString`) are not modelled.
- Strings are sequences of Unicode scalar values. Lengths and positions (`slice(0, n)` in the previews and overviews, the password-length check) therefore count characters, where JavaScript counts UTF-16 code units; the two differ only for characters outside the Basic Multilingual Plane.
- `localeCompare` is taken as the order of character codes (FormsPage.NameLe compares scalar values, which agrees with the UTF-16 code-unit order except when characters outside the Basic Multilingual Plane are compared with characters from U+E000 to U+FFFF). Locale collation is not modelled. Case mapping covers ASCII letters only.
- Js.ParseInt reads optional white space, a sign and decimal digits; the `0x` prefix that `parseInt` also accepts (reading the rest as hexadecimal) is not modelled.
- KnowledgeBase.KnowledgeBaseState.CategoryCounts returns a map, so the insertion order in which the page lists the counters is not modelled.
- Plain objects keep their keys in insertion order. The JavaScript rule that lists integer-like keys first is not modelled.
- The regular expressions in form-author validation rules and the service captures of the knowledge drawer are oracle parameters. So are the phone-number library and the country table.
- Reference identity is not modelled: two arrays are never equal. The menu builder's `splice` on a screen list that is also held by the previous state (aliasing) is modelled as a new list.
- The text handed to `JSON.parse` is not parsed. `LeadDetails.SafeParse` receives the parse result as data.
- `getCategoryColor` of the knowledge drawer is modelled on its five own keys. Prototype keys such as `toString` are not modelled.
- Purely presentational state is not modelled: open dialogs, hover, the header's Escape and outside-click handlers, and icons and colours beyond those listed.
- The phone field's `defaultCountry` effect, which fills in the calling code once, is not modelled.
- The knowledge base page's `getHostname` display helper (`src/modules/admin/knowledge-base/KnowledgeBasePage.jsx:94-101`) is not modelled.
- The contacts page's `handleDelete` and `handleStatusChange`, the list deletion and the users page's `handleDeleteUser` are not modelled. Each is a single request followed by a refetch.
- Role management's `handleSeed` and `handleDelete` are not modelled. Both are requests followed by a refetch.
- The pending conversations page's lead-details fetch is not modelled.
- ProfilePage: the profile fetch and the profile update are not modelled, only the password dialog and the initials.
- LoginPage: the success `alert` and the `location.state` lookup are not modelled. The page to return to is a parameter.
- WhatsAppChat: the fetch URL and the error log are not modelled. A failed fetch leaves the empty initial state.
- FormBuilder.Builder.MoveField: requires the source index to be a field of the selected screen. Its only caller is `handleMove` in src/modules/forms/builder/FormCanvas.jsx:35-38, behind the up and down arrow buttons of a rendered field, so `index` is a position in `activeScreen.fields`; `activeScreen` is `screens.find(...) || screens[0]` (FormCanvas.jsx:22), the selected screen whenever one is selected. An out-of-range source index, which would splice in `undefined`, is not modelled.
- FormBuilder: `loadSavedState` merges an arbitrary object into the state and is not modelled, since the object's shape is not fixed.
- LogicEditor.UpdateCondition: requires the index of a listed condition, which is all the rendered rows pass.

## Findings

| source | as written | input that shows it | evidently intended | confidence | as-written member | corrected member |
|---|---|---|---|---|---|---|
| src/modules/admin/users/UsersPage.jsx:30 | the page count divides by `itemsPerPage`, a name defined nowhere in the file or its imports | any render, with any user list | divide by the `pageSize` state and show the current page's users | high (not executed) | UsersPage.UsersPageState.Render | UsersPage.UserOnItsPage |
