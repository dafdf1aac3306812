# Staff directory screen — a verified model

This project models the client-side core of the staff-directory screen of an auto
service manager: who may change the directory, and what the screen does when they do.

- **Technician directory controller** (`client/src/pages/technicians.tsx`). The page
  holds five pieces of state: whether the create dialog is open, whether the edit
  dialog is open, the record awaiting delete confirmation, the draft form and the id
  of the record being edited. The model adds the in-flight flag of each of its three
  mutations. Its pure rules are modelled as functions: the skill heuristic that seeds
  the edit form from free-text `specialization`, the create and partial-update request
  bodies (`skill` travels as `specialization`), the submit guard, the active-staff
  count and the set of actions rendered for the role. The page itself is the class
  `Technicians.TechniciansPage`. Each handler is a method, proved against the state it
  leaves. Its invariant says that editing always has a record id and that a read-only
  operator never leaves the idle state.
- **Role store** (`client/src/contexts/UserRoleContext.tsx`). This is the class
  `UserRoleContext.UserRoleProvider`. It holds the role and a `map<string,string>`
  for browser storage. It proves the fallback of the initializer and the write-back
  of `setRole` and of the persist effect. It also proves that a stored role survives
  a reload. The capability flags are pure predicates of the role.
- **Role selector** (`client/src/components/role-selector.tsx`). A role change sets
  the role and then invalidates every query. The badge variant is a pure function of
  the role. So are the highlight class and the `data-testid` of each menu item.
- **Staff selectors** (`client/src/services/staffServices.ts`). `filterTechnicians`
  and `filterMaintenance` are order-preserving filters on the lower-cased role.

Outgoing HTTP requests and cache invalidations are recorded in the logs of
`Query.QueryClient`. That is how "no request is sent" and "the list is invalidated
after success" become postconditions. `Text` gives ASCII models of `toLowerCase`,
`trim`, `includes` and single-character `replace`. `Seqs` gives `Array.filter` with
its membership, multiplicity, order, idempotence and concatenation lemmas.

Modelling notes:
- JavaScript truthiness is kept. An empty stored role falls back to "Admin", like a
  missing one. An empty `specialization` seeds "Mechanic". The delete confirmation is
  open only for a non-empty target id (`!!deleteTechnicianId`), and only then does
  confirming send a request.
- The submit guard checks both in-flight flags (`technicians.tsx:336`), so a
  pending create also blocks an update, and a pending update also blocks a create.
- In the code the invalidation after a role change comes from the role selector, not
  from `setRole`. A failed delete leaves the target in place (`onError` only shows a
  toast). The confirmation closes anyway because its action button also fires
  `onOpenChange`. `ConfirmDeleteScenario` shows that order.
- `USER_ROLES` and the `Technician` type live in a schema module that is not part of
  this model. The roles are a parameter that must contain "Admin" and "Manager". A
  technician is an id, a name, a phone, an optional `specialization` and `isActive`.

## Model

| member | source | states |
|---|---|---|
| Technicians.NormalizeSkill | client/src/pages/technicians.tsx:240-250 | on the lower-cased text (missing reads as empty): Repairer iff it contains "repair"; Asst. Mechanic iff not that and it contains "asst" or "assistant"; Mechanic iff none of the three; the "repairer" test is subsumed by "repair" |
| Technicians.RepairAssistantIsRepairer | client/src/pages/technicians.tsx:243-246 | the repair test runs first: "Repair Assistant" seeds Repairer |
| Technicians.SkillLabelRoundTrip | client/src/pages/technicians.tsx:240-250 | the label of each skill, as sent in `specialization`, normalizes back to that same skill |
| Technicians.SeedForm | client/src/pages/technicians.tsx:251-256 | name, phone and status are copied from the record unchanged, and a `specialization` that is some skill's label seeds that very skill |
| Technicians.EditSeedsSubmittedForm | client/src/pages/technicians.tsx:237-256 | a record holding exactly what a form sent reopens in edit as that same form |
| Technicians.CreateBody | client/src/pages/technicians.tsx:85-90 | the create body is the update body of a fully defined form: exactly the four wire fields, with the skill label as `specialization` |
| Technicians.UpdateBody | client/src/pages/technicians.tsx:107-112 | each wire field is present iff its input field is defined, with the input's value (`skill` renamed to `specialization`); no other key appears |
| Technicians.EmptyUpdateSendsNothing | client/src/pages/technicians.tsx:107-112 | an update with no defined field sends the empty body |
| Technicians.SubmitDisabled | client/src/pages/technicians.tsx:336 | submit is disabled iff a create or update is pending or the name or phone is all whitespace |
| Technicians.SubmittableForm | client/src/pages/technicians.tsx:336 | with nothing pending, a name and phone that start with a visible character enable submit |
| Technicians.InitialFormBlocked | client/src/pages/technicians.tsx:57-62 | the reset form (empty name and phone) can never be submitted |
| Technicians.ActiveCount | client/src/pages/technicians.tsx:140 | the count never exceeds the list length; it equals the length iff every record is active and is zero iff none is |
| Technicians.ShownActiveCount | client/src/pages/technicians.tsx:77-140 | the "Active Staff" figure is the active count of the loaded records, and zero while `technicianList` holds its empty default |
| Technicians.ActiveCountAppend | client/src/pages/technicians.tsx:140 | the count of a concatenated list is the sum of the counts of its parts |
| Technicians.Affordances | client/src/pages/technicians.tsx:163-265 | any rendered action implies an administrator and a list that did not fail to load; an edit button exists for exactly the loaded records, and a delete button for exactly their ids |
| Technicians.ReadOnlyShowsNoActions | client/src/pages/technicians.tsx:163-231 | a non-administrator is offered no action at all |
| Technicians.TechniciansPage.constructor | client/src/pages/technicians.tsx:67-74 | the page starts idle with the initial form, no edited id, nothing pending, the list loading, and `isAdmin` from the role context |
| Technicians.TechniciansPage.ReceiveList | client/src/pages/technicians.tsx:77-79 | the list query's outcome replaces the list state and nothing else |
| Technicians.TechniciansPage.OpenCreate | client/src/pages/technicians.tsx:163-168 | reachable only through the rendered Add button; resets the form to the initial form and opens the create dialog, nothing else |
| Technicians.TechniciansPage.OpenEdit | client/src/pages/technicians.tsx:236-258 | reachable only through a rendered edit button; sets the edited id to the record's id, seeds name, phone and isActive unchanged with the normalized skill, opens the edit dialog |
| Technicians.TechniciansPage.RequestDelete | client/src/pages/technicians.tsx:262 | reachable only through a rendered delete button; holds that id as the delete target |
| Technicians.TechniciansPage.ResetForm | client/src/pages/technicians.tsx:278-281 | both dialog flags false, initial form, no edited id |
| Technicians.TechniciansPage.FormOpenChange | client/src/pages/technicians.tsx:276-283 | closing resets both flags, the form and the edited id; opening changes nothing |
| Technicians.TechniciansPage.Cancel | client/src/pages/technicians.tsx:333 | leaves both flags false, the initial form and no edited id |
| Technicians.TechniciansPage.SetName | client/src/pages/technicians.tsx:294 | only the draft's name changes |
| Technicians.TechniciansPage.SetPhone | client/src/pages/technicians.tsx:303 | only the draft's phone changes |
| Technicians.TechniciansPage.SetSkill | client/src/pages/technicians.tsx:311 | only the draft's skill changes |
| Technicians.TechniciansPage.SetIsActive | client/src/pages/technicians.tsx:328 | only the draft's status changes |
| Technicians.TechniciansPage.Submit | client/src/pages/technicians.tsx:335-336 | when disabled no request is sent and nothing changes; otherwise one PATCH of the edited record's path with the full update body when editing, else one POST to the collection with the create body; the matching flag becomes pending; nothing is invalidated |
| Technicians.TechniciansPage.OnCreateSuccess | client/src/pages/technicians.tsx:93-97 | the list key is invalidated once; the create dialog closes and the form resets; no request is sent |
| Technicians.TechniciansPage.OnUpdateSuccess | client/src/pages/technicians.tsx:114-119 | the list key is invalidated once; the edit dialog closes, the form resets and the edited id is cleared |
| Technicians.TechniciansPage.ConfirmDelete | client/src/pages/technicians.tsx:357 | one DELETE of the target's path exactly when the confirmation is open (a non-empty target is held), otherwise no request |
| Technicians.TechniciansPage.OnDeleteSuccess | client/src/pages/technicians.tsx:130-133 | the list key is invalidated once and the target is cleared |
| Technicians.TechniciansPage.OnError | client/src/pages/technicians.tsx:99-137 | only the failed mutation's pending flag drops; dialogs, form, edited id and target are unchanged and nothing is invalidated |
| Technicians.TechniciansPage.DeleteOpenChange | client/src/pages/technicians.tsx:345 | any open-change of the confirmation clears the target |
| Technicians.RegisterScenario | client/src/pages/technicians.tsx:82-97 | an administrator registering "Bruce Smith" as a Repairer sends exactly one POST with the mapped body, and its success invalidates the list exactly once |
| Technicians.CancelDeleteScenario | client/src/pages/technicians.tsx:345 | requesting a delete and dismissing the confirmation sends no request and invalidates nothing |
| Technicians.ConfirmDeleteScenario | client/src/pages/technicians.tsx:126-133 | confirming sends exactly one DELETE of the record's path, and its success invalidates the list once |
| Text.Lower | client/src/services/staffServices.ts:31 | `toLowerCase` keeps the length, maps each character on its own, and leaves no upper-case letter |
| Text.ContainsAt | client/src/pages/technicians.tsx:243-245 | `includes` holds exactly when the needle occurs at some position of the text |
| Text.TrimStartShape | client/src/pages/technicians.tsx:336 | the leading-whitespace step of `trim()` leaves a suffix that does not start with whitespace, and drops only whitespace |
| Text.TrimEndShape | client/src/pages/technicians.tsx:336 | the trailing-whitespace step of `trim()` leaves a prefix that does not end with whitespace, and drops only whitespace |
| Text.ReplaceFirst | client/src/components/role-selector.tsx:50 | `replace(" ", "-")` keeps the length, turns only the first space into "-" and keeps every other character |
| Query.QueryClient.ApiRequest | client/src/pages/technicians.tsx:91 | a request appends exactly that method, path and body to the request log; the invalidation log is unchanged |
| Query.QueryClient.InvalidateQueries | client/src/pages/technicians.tsx:94 | an invalidation appends exactly its filter to the invalidation log; the request log is unchanged |
| Text.TrimEmptyIffBlank | client/src/pages/technicians.tsx:336 | `trim()` yields the empty string iff every character is whitespace |
| Text.ContainsPrefixOfNeedle | client/src/pages/technicians.tsx:243 | a string containing "repairer" also contains "repair" (any needle's prefix) |
| UserRoleContext.InitialRole | client/src/contexts/UserRoleContext.tsx:17-23 | the stored value when it is non-empty and a known role, otherwise "Admin"; always a known role when the role list is well formed |
| UserRoleContext.InitialRoleFallback | client/src/contexts/UserRoleContext.tsx:18-22 | a missing, empty or unknown stored value yields "Admin" |
| UserRoleContext.FlagsConsistent | client/src/contexts/UserRoleContext.tsx:34-36 | administrator and manager never hold together; revenue is visible iff either holds |
| UserRoleContext.ContextValue | client/src/contexts/UserRoleContext.tsx:34-39 | the provided role is the role, and each flag holds exactly when its predicate holds of the role (administrator iff "Admin", manager iff "Manager", revenue iff either); the flags never contradict each other |
| UserRoleContext.UseUserRole | client/src/contexts/UserRoleContext.tsx:45-50 | the context value when a provider is present, otherwise the missing-provider error |
| UserRoleContext.UserRoleProvider.constructor | client/src/contexts/UserRoleContext.tsx:17-32 | mounting starts from the initializer's role and the persist effect writes it to "userRole" |
| UserRoleContext.UserRoleProvider.PersistEffect | client/src/contexts/UserRoleContext.tsx:30-32 | storage "userRole" becomes the current role, nothing else changes |
| UserRoleContext.UserRoleProvider.SetRole | client/src/contexts/UserRoleContext.tsx:25-28 | the role becomes the new role and storage "userRole" holds it; the stored value equals the role afterwards |
| UserRoleContext.RestartRestoresRole | client/src/contexts/UserRoleContext.tsx:19-27 | initializing from storage in which a non-empty known role was written yields that role |
| UserRoleContext.Reload | client/src/contexts/UserRoleContext.tsx:17-32 | a provider rebuilt from a mounted provider's storage has the same role and storage |
| RoleSelector.HandleRoleChange | client/src/components/role-selector.tsx:17-20 | the role becomes the chosen one (and is persisted), then exactly one invalidation with no key filter is recorded, and no request is sent |
| RoleSelector.RoleBadgeVariant | client/src/components/role-selector.tsx:22-31 | "default" exactly for the administrator, "secondary" exactly for the manager, "outline" exactly for roles that cannot view revenue |
| RoleSelector.ItemClass | client/src/components/role-selector.tsx:49 | an item carries the highlight class exactly when it is the current role, and no class otherwise |
| RoleSelector.Highlighted | client/src/components/role-selector.tsx:45-49 | only items equal to the current role carry the highlight class |
| RoleSelector.ExactlyOneHighlighted | client/src/components/role-selector.tsx:45-49 | with distinct roles in the menu, exactly one item is highlighted: the current role |
| RoleSelector.TestId | client/src/components/role-selector.tsx:50 | `menu-role-` followed by the role, lower-cased, with the first space and only it turned into "-" |
| RoleSelector.TestIdOfAdmin | client/src/components/role-selector.tsx:50 | the test id of "Admin" is "menu-role-admin" |
| RoleSelector.TestIdKeepsLaterSpaces | client/src/components/role-selector.tsx:50 | every space after the first survives into the test id |
| StaffServices.FilterTechnicians | client/src/services/staffServices.ts:30-32 | keeps exactly the members whose lower-cased role is "technician", as a subsequence of the input (order kept, no longer than it), each technician as many times as it occurs in the input |
| StaffServices.FilterMaintenance | client/src/services/staffServices.ts:34-36 | keeps exactly the members whose lower-cased role is "maintenance" or "staff-maintenance", as a subsequence of the input, each such member as many times as it occurs in the input |
| Seqs.FilterMultiset | client/src/services/staffServices.ts:31-35 | `filter` keeps every copy of a satisfying element and no copy of any other |
| StaffServices.SelectorsIdempotent | client/src/services/staffServices.ts:31-35 | applying either selector to its own output returns it unchanged |
| StaffServices.SelectorsDisjoint | client/src/services/staffServices.ts:31-35 | no member is in both selections of the same input |
| StaffServices.MissingRoleNeverSelected | client/src/services/staffServices.ts:31-35 | a member whose role is missing or empty is in neither selection |
| StaffServices.RoleMatchIgnoresCase | client/src/services/staffServices.ts:31 | "Technician" and "TECHNICIAN" are both selected as technicians and not as maintenance |
| Seqs.FilterIsSubsequence | client/src/services/staffServices.ts:31-35 | a filter's result is a subsequence of its input |
| Seqs.FilterIdempotent | client/src/services/staffServices.ts:31-35 | filtering twice with one predicate equals filtering once |

## Left out

- `client/src/lib/timezone.ts` is not part of this model. It wraps a date library and reads the wall clock.
- `fetchJson` and `fetchAllStaff` (network I/O and JSON decoding) are left out.
- `apiRequest` and `queryClient` are not part of this model. A request is a log entry and an invalidation is a recorded filter. The model has no cache: no refetch, coalescing or stale-while-revalidate. The list query's outcome arrives through `ReceiveList`.
- Rendering, dialog mechanics, toasts, translations, icons and styling are left out. Only the state changes that the callbacks make are kept, plus the set of rendered actions.
- Asynchrony is left out. Each mutation's in-flight state is a boolean set by `Submit` or `ConfirmDelete` and cleared by its success or error method, and a completion method needs its flag set. The flag tracks the last call, so overlapping deletes are not counted separately.
- `toLowerCase` and `trim` work on ASCII only: letters A-Z, and space, tab, LF, VT, FF and CR. Unicode case mapping and Unicode whitespace are not modelled.
- The contents of `USER_ROLES` and the schema's `Technician` type are abstract (see the modelling notes).
- Technicians.TechniciansPage.constructor: `isAdmin` is fixed when the page is built. A role change while the page is mounted re-renders it with a new flag, and the model does not follow that.
- RoleSelector.HandleRoleChange: the contract does not show that the role is set before the invalidation. The two effects touch separate state, so their order cannot be seen in the model.
- Technicians.TechniciansPage.ConfirmDelete: the dialog closing on its own after the action button (which clears the target) is not part of this method. It is the separate `DeleteOpenChange` call, and `ConfirmDeleteScenario` shows the two in order.
- RoleSelector.ExactlyOneHighlighted: the lemma assumes the roles in the menu are distinct. The real list is not visible here.
- The loading skeleton, the "no technicians" row and the badge text of each row are left out, because they render but change no state.
- The dialog handlers (`FormOpenChange`, `Cancel`, the `Set*` inputs, `Submit`, `ConfirmDelete`, `DeleteOpenChange`) require a list that did not fail to load, because the error card replaces the whole page, dialogs included. The mutation callbacks stay callable, since a request in flight settles whatever the page shows.
