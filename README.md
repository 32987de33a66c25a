# Document options and task-card logic of influxdb, in Dafny

This project models two small pieces of influxdb and proves properties of them.

- `document.dfy`, module `Document`: the document-store options of `document.go`.
  - Create-options: `WithOrg` and `AuthorizedWithOrg` resolve an organization by name and record it as an owner of the document being created.
  - Find-options: `WhereOrg`, `AuthorizedWhereOrg`, `AuthorizedWhere`, `WhereID` and `AuthorizedWhereID` select document IDs.
  - All of them work against an abstract `DocumentIndex`.
  - The index is a class holding:
    - organization name → ID;
    - (ownerType, ownerID) → document IDs;
    - document ID → owner IDs;
    - the org-owner and org-member relations, as sets of (userID, orgID);
    - user → organization IDs.
  - The index is bound to the document being created (`docID`). A `storeFault` field stands for a store that refuses writes.
  - A key missing from one of the maps models the index reporting an error for that lookup. Each lookup has its own fixed error value.
  - The Go `error` return is `Outcome` (`Pass` is nil). The `([]ID, error)` pair is `Result`.
- `task_card.dfy`, module `TaskCard`: the non-rendering logic of `TaskCard.tsx`.
  - Covered: the schedule text, the active test, the in-place status toggle, rename-by-copy, the label click and the label list, the export file, and the runs route.
  - The task is a class, because `changeToggle` assigns its `status` in place.
  - A callback the card invokes (`onActivate`, `onUpdate`, `onFilterChange`) is modelled by the value the handler returns: the argument it hands to that callback.
  - `every`, `offset` and `cron` are strings, with `""` meaning unset. The component tests their JavaScript truthiness, and an absent string and `""` are both falsy.

Two behaviours of the card are worth knowing:
- `changeToggle` assigns `task.status` on the task object it was given (TaskCard.tsx:173, :175) before calling `onActivate` (:177). `ChangeToggle` models that in-place update.
- `handleViewRuns` pushes the relative route `tasks/{id}/runs`, with no leading slash (:108). The card's name link uses `/tasks/{id}` (:52).

## Model

| member | source | states |
|---|---|---|
| `Document.DocumentIndex.FindOrganizationByName` | document.go:44 | Resolves a known name to its ID. An unknown name is the index's not-found error. |
| `Document.DocumentIndex.GetOwnersDocuments` | document.go:35 | Returns the documents recorded under (ownerType, ownerID). An owner with no entry is the index's error. |
| `Document.DocumentIndex.GetDocumentsOwners` | document.go:36 | Returns the owners recorded for a document. A document with no entry is the index's error. |
| `Document.DocumentIndex.IsOrgOwner` | document.go:38 | nil exactly when the user owns the organization, otherwise the not-an-owner error. |
| `Document.DocumentIndex.IsOrgMember` | document.go:39 | nil exactly when the user is a member of the organization, otherwise the not-a-member error. |
| `Document.DocumentIndex.UsersOrgs` | document.go:41 | Returns the user's organizations. A user with no entry is the index's error. |
| `Document.CanAccess` | document.go:146-150 | The condition AuthorizedWhereID grants on: some owner of the document is an organization the user owns. Stated both by position in the owner list and by membership. |
| `Document.DocumentIndex.OwnerAdded` | document.go:33 | The effect of AddDocumentOwner that WithOrg (:58) and AuthorizedWithOrg (:75) return. The store's error comes back exactly when the store refuses writes. On success the document is recorded under the owner and the owner under the document. Existing owners' document lists are only extended. |
| `Document.DocumentIndex.AddDocumentOwner` | document.go:33 | If the store refuses writes, its error is returned and nothing changes. Otherwise the document is recorded under the owner and the owner under the document, and nothing else changes. |
| `Document.WithOrg` | document.go:51-60 | An unknown org returns the lookup error and leaves the index unchanged. Otherwise the only change is adding the owner ("org", oid) via AddDocumentOwner, whose result is returned. On success, WhereOrg for that org returns the previous documents followed by this document. |
| `Document.AuthorizedWithOrg` | document.go:62-77 | It resolves the org, then checks IsOrgOwner, then calls AddDocumentOwner. The first failure is returned and leaves the index unchanged. An owner is added only for a user who owns the resolved org. On success, AuthorizedWhereID grants the user this document. |
| `Document.WhereOrg` | document.go:79-87 | It succeeds iff the org resolves and ("org", oid) is indexed, and then returns exactly that owner's documents. An unknown org yields the lookup error. A resolved org with no entry yields GetOwnersDocuments's own error. |
| `Document.AuthorizedWhereOrg` | document.go:89-102 | A user who is not a member of the org gets the membership error, even if they own it. A member gets exactly WhereOrg's result. An unknown org yields the lookup error. |
| `Document.WhereID` | document.go:133-137 | It always returns exactly [docID] and never an error. It has no reads clause, so it cannot consult the index. |
| `Document.AuthorizedWhereID` | document.go:139-158 | It returns [docID] iff some owner of the document is an org the user owns. For an unindexed document, GetDocumentsOwners's error is propagated. Otherwise it returns the EUnauthorized error "authorizer cannot access document". |
| `Document.OrgsDocuments` | document.go:120-127 | The loop's result over a list of orgs: it succeeds iff every listed org is indexed, and otherwise fails with GetOwnersDocuments's error. |
| `Document.DocumentsBeforeFailure` | document.go:120-127 | What the loop appends to the captured list, including documents read before a lookup fails. This is the loop's whole result when no lookup fails. |
| `Document.AuthorizedWhereOnce` | document.go:108-129 | One call's selection: it succeeds iff the user, the user's org list and every listed org are indexed. The result is then the user's own documents followed by the orgs' documents. |
| `Document.OrgsDocumentsSnoc` | document.go:120-127 | One more turn of the loop appends the next org's documents, or ends with that org's lookup error. |
| `Document.OrgsDocumentsAbort` | document.go:121-124 | Once an org lookup has failed, later orgs change neither the error nor what was appended. |
| `Document.OrgsDocumentsFailAt` | document.go:120-127 | A failing lookup at position i is the error of the whole loop. What was appended stays what the first i orgs contributed. |
| `Document.OrgsDocumentsMembers` | document.go:120-127 | A document is in the concatenated org documents iff some listed org owns it. |
| `Document.AuthorizedWhereAborts` | document.go:115-124 | A lookup error for any one of the user's orgs makes the whole AuthorizedWhere call fail. |
| `Document.AppendedByCall` | document.go:108-127 | What one call of the closure appends (:113, :126). An unindexed user appends nothing. Otherwise the user's documents come first, and they are all that is appended when the lookup of the user's orgs fails. On success exactly the returned selection is appended. |
| `Document.AuthorizedWhereOption.constructor` | document.go:104-105 | AuthorizedWhere(a) yields a closure whose captured list starts empty. |
| `Document.AuthorizedWhereOption.Apply` | document.go:106-130 | Every call appends to the captured list what it reads, even documents read before a failing lookup, so the list only grows. The call returns the whole captured list on success and the first lookup error otherwise. |
| `Document.AuthorizedWhereTwice` | document.go:104-131 | On an unchanged index, the first call returns the user's documents then each org's in order. A second call of the same closure returns that list twice over, and an error again if the first failed. |
| `Document.AuthorizedWhereFixed` | document.go:104-131 | With the list local to each call, the result is exactly the user's documents followed by each org's, or the first lookup error. |
| `TaskCard.ScheduleText` | ui/src/tasks/components/TaskCard.tsx:182-191 | With `every` and `offset` both set, the text is "every " + every + ", offset " + offset. With only `every` set, it is "every " + every. Without `every`, the text is the cron string. The text is empty iff neither `every` nor `cron` is set. |
| `TaskCard.Schedule` | ui/src/tasks/components/TaskCard.tsx:180-192 | The getter reads only `every`, `offset` and `cron`. With `every` and `offset` both set, the text is "every E, offset O". With only `every` set, it is "every E". Without `every`, it is the cron string. It is empty iff neither `every` nor `cron` is set. |
| `TaskCard.ScheduleIntervalBeatsCron` | ui/src/tasks/components/TaskCard.tsx:182-187 | When `every` is set, the cron string cannot affect the text, which starts with "every " + every. |
| `TaskCard.ScheduleOffsetNeedsInterval` | ui/src/tasks/components/TaskCard.tsx:182-190 | Without `every`, the offset is ignored and the text is the cron string. |
| `TaskCard.IsTaskActive` | ui/src/tasks/components/TaskCard.tsx:156-162 | True iff the status is Active. |
| `TaskCard.Toggled` | ui/src/tasks/components/TaskCard.tsx:172-176 | The toggled status always differs from the old one. |
| `TaskCard.ToggledTwice` | ui/src/tasks/components/TaskCard.tsx:172-176 | Toggling twice gives back the original status. |
| `TaskCard.ChangeToggle` | ui/src/tasks/components/TaskCard.tsx:170-178 | It flips Active and Inactive on the task object itself, changing no other field, and hands that same object to onActivate. IsTaskActive flips with it. |
| `TaskCard.ChangeToggleTwice` | ui/src/tasks/components/TaskCard.tsx:170-178 | Two toggles restore the task's status, and onActivate receives the task itself both times. |
| `TaskCard.HandleUpdateTask` | ui/src/tasks/components/TaskCard.tsx:111-114 | When the optional onUpdate prop is given, it receives a new object that equals the task in every field but `name`, which is the new name. When the prop is absent, the unguarded call throws and nothing is handed over. The card's task is never modified. |
| `TaskCard.FindLabel` | ui/src/tasks/components/TaskCard.tsx:151 | The position `find` returns: a label with the id, with no earlier label having it. |
| `TaskCard.HandleLabelClick` | ui/src/tasks/components/TaskCard.tsx:150-154 | onFilterChange is called once, with the name of the first label whose id matches. A matching label is required. |
| `TaskCard.LabelsOf` | ui/src/tasks/components/TaskCard.tsx:130-146 | The empty-label branch is taken iff the task has no labels. Otherwise there is one entry per label, in order, carrying that label's id, colour, name and description. |
| `TaskCard.ClickFiltersByLabelName` | ui/src/tasks/components/TaskCard.tsx:136-154 | Clicking a rendered entry finds a label. When label ids are distinct, it filters by that entry's own name. |
| `TaskCard.HandleExport` | ui/src/tasks/components/TaskCard.tsx:122-125 | The downloaded content is the task's flux script. The file name is the task name followed by ".flux". |
| `TaskCard.RunsRoute` | ui/src/tasks/components/TaskCard.tsx:106-109 | The pushed route is "tasks/", then the task id, then "/runs", with nothing else. |
| `TaskCard.RunsRouteTaskID` | ui/src/tasks/components/TaskCard.tsx:106-109 | Any route it accepts is the runs route of the id it extracts. |
| `TaskCard.RunsRouteRoundTrip` | ui/src/tasks/components/TaskCard.tsx:106-109 | The pushed route is exactly "tasks/" + id + "/runs", and the id can be read back from it. |

## Left out

- The `DocumentService` and `DocumentStore` interfaces (document.go:7-10, 22-30) have no implementation here, so they are not modelled. The same goes for `context.Context` and the untyped `Data` payload of `Document`.
- The real index backing store is not part of this model.
  - Its lookups are map and set look-ups, and a missing key stands for the index's error.
  - The messages of those errors are placeholders. Only which error is returned is modelled.
  - The effect of `AddDocumentOwner` is this model's reading of the method's name: record the owner and the document against each other.
- `Authorizer` is reduced to the user ID that `GetUserID()` yields.
- The DocumentCreateOptions and DocumentFindOptions function types are not reified. Each option is modelled as its closure applied to an index, and AuthorizedWhere's closure as the class `AuthorizedWhereOption`, because it carries state.
- Go slice aliasing from `append` is not modelled. The lists are values.
- In the task card, these are not modelled because they are rendering or browser effects:
  - the JSX trees (`ResourceList`, `Label`, `Context` menus), styling and test IDs;
  - the `FeatureFlag` gate around Export;
  - `handleClick`;
  - `handleEditLabels`, which forwards the task unchanged;
  - the Run, Clone and Delete menu items, which pass `task.id` or `task` straight to their props;
  - the actual `router.push` and `downloadTextFile` calls. Only the route string and the file name and content are modelled.
- The placeholder shown for an empty name is not modelled. The name component applies it, and the `DEFAULT_TASK_NAME` constant it comes from is not part of this model.
- HandleUpdateTask: the spread copy is shallow in JavaScript, so the copy shares the `labels` array with the original. Here labels are a value, so that sharing is not captured.
- HandleExport: a task without a name would give "undefined.flux" in JavaScript. Here the name is always a string.
- The Cypress support commands and the explorer end-to-end test are test harnesses with no product logic, so they are not modelled.

## Findings

| source | as written | input that shows it | evidently intended | confidence | as-written member | corrected member |
|---|---|---|---|---|---|---|
| document.go:104-131 | `ids` is declared outside the returned closure (:105) and appended to on every call (:113, :126) | the same AuthorizedWhere option applied twice to an unchanged index where the user owns at least one document: the second call returns every ID twice | each call returns only the documents it selects | medium; not executed | `Document.AuthorizedWhereTwice` | `Document.AuthorizedWhereFixed` |

- A related effect shows in `Document.AuthorizedWhereOption.Apply`: a call that fails part-way still leaves the documents it read in the captured list.
- `Document.AuthorizedWhereFixed` declares the list inside each call. It is proved to return exactly `Document.AuthorizedWhereOnce`, which depends on nothing but the index.
