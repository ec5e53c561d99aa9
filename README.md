# Ad-campaign compliance console, modelled in Dafny

The console is a single-page React application with two views. In the rule editor, a
signed-in user creates, edits and deletes compliance rules and can ask a language model to
suggest a rule's condition and message. In the violation dashboard, the user sees the recorded
violations, narrows them with three filters and sorts them newest first. Both views mirror a
per-user Firestore collection at `artifacts/{appId}/users/{userId}/{rules|violations}`.

The project models the data-handling core of `src/App.jsx`:

- **Paths** (`paths.dfy`): the application id fallback and the collection paths. Paths are
  built only when a database handle and a user are present. Within one deployment, different
  users and entity types always get different paths. Across deployments this holds once the
  application ids contain no `/` (a `/` in one lets two collections collide, as
  `Paths.SlashedAppIdsCollide` shows). When neither id contains a `/`, a path parses back to
  the collection it names.
- **Violation view** (`violations.dfy`, `recency.dfy`, `violation_view.dfy`, with `text.dfy`
  for lower-casing and substring search and `instants.dfy` for the ISO text of a timestamp):
  - The filter combines an exact platform match (`'All'` lets everything through), a
    case-insensitive substring match on the user id, and a case-insensitive substring match
    against the text of any field.
  - The filtered list is then sorted by timestamp, newest first, keeping ties in their
    filtered order (JavaScript's `Array.prototype.sort` is stable).
  - The sort is an insertion sort. It is proved ordered, a permutation and stable. It is also
    proved to be *the* stable descending sort: any ordered list with the same tie groups
    equals it.
- **Violation dashboard** (`violation_dashboard.dfy`): the `ViolationTracking` component is a
  class. Its fields are the mirrored list, the filter inputs, the message and the remote
  collection, and its handlers are the methods.
- **Rule documents** (`documents.dfy`): rules are JavaScript objects, modelled as maps from
  field name to string or boolean (a missing key is `undefined`). Object spread becomes map
  update, and `updateDoc` becomes map union.
- **Rule editor** (`rule_editor.dfy`): the `RuleManagement` component is a class with the
  component's state, the remote rules collection, and an invariant kept by every handler.
  Under the invariant, every mirrored rule has a string id. While a rule is edited, the draft
  carries that rule's id and audit fields. Without an edit the draft has no id. Every stored
  `id` field names its own document.
- **Scenarios** (`rule_scenarios.dfy`): runs of the handlers from first render. They create
  the example naming rule, request suggestions for a budget rule, and rename a stored rule.

The clock, the ids the store assigns, the random choices of a simulated violation, the answer
to `window.confirm`, the outcome of every remote write and the language model's reply are
parameters of the handlers.

Two behaviours of the code are worth knowing, and the model follows the code in both:

- Saving an edit writes the draft back whole. The draft is a copy of the mirrored rule, so it
  carries the `id`, `createdAt` and `createdBy` fields. The update therefore writes an `id`
  field into the document's data too, and re-writes the audit fields with the values the
  editor opened. The audit fields are unchanged only because those values are the stored
  ones, which is what `RuleEditor.RuleManagement.SaveEditedRule` and
  `Documents.EditKeepsAudit` state.
- The free-text search runs over every value of the mirrored record, the document id and the
  ISO timestamp text included.

## Model

| member | source | states |
|---|---|---|
| Paths.ResolveAppId | src/App.jsx:150 | an injected app id is used as it is, even when empty; otherwise the id is `default-app-id` |
| Paths.CollectionPath | src/App.jsx:153-156 | a path exists exactly when the database is ready and the user id is truthy, and it is `artifacts/{appId}/users/{userId}/{kind}` |
| Paths.PathSegments | src/App.jsx:530-533 | for ids without `/`, a collection path splits into exactly the five segments artifacts, app, users, user, kind |
| Paths.PathRoundTrip | src/App.jsx:153-156 | for app and user ids without `/`, parsing a collection path gives back the app, user and kind it was built from |
| Paths.PathOf | src/App.jsx:153-156 | `artifacts/{appId}/users/{userId}/{rules or violations}`, the template both components fill in; its contract is in the rows below |
| Paths.ParsePath | src/App.jsx:153-156 | reads a five-segment `artifacts/…/users/…/{rules or violations}` path back into its app, user and kind, the inverse of the template that `Paths.PathRoundTrip` proves |
| Paths.SameAppIsolated | src/App.jsx:153-156 | within one deployment, two different (user, kind) pairs never share a collection path, whatever the user ids contain |
| Paths.CollectionsAreIsolated | src/App.jsx:530-533 | when the application ids contain no `/`, two different (app, user, kind) triples never share a collection path, whatever the user ids contain |
| Paths.SlashedAppIdsCollide | src/App.jsx:153-156 | with a `/` in an application id, two different keys build the same path, so the condition above is needed |
| Text.ToLower | src/App.jsx:585 | lower-casing keeps the length, maps each character by the letter mapping, and leaves no upper-case letter |
| Text.ToUpper | src/App.jsx:566 | upper-casing keeps the length and maps each character by the letter mapping |
| Text.ToLowerIdempotent | src/App.jsx:585-588 | lower-casing twice is lower-casing once |
| Text.UpperSameUpToCase | src/App.jsx:566 | an upper-cased text is the same text up to case |
| Text.OccursImpliesContains | src/App.jsx:585 | if the needle occurs at some position of the text, `includes` is true |
| Text.ContainsWitness | src/App.jsx:585 | if `includes` is true, there is a position where the needle occurs |
| Text.ContainsIffOccurs | src/App.jsx:588 | `includes` holds exactly when the needle occurs at some position |
| Text.Contains | src/App.jsx:585 | `includes`: the needle is a prefix of the text or of one of its suffixes; `Text.ContainsIffOccurs` relates it to an occurrence at an index |
| Text.ContainsPrefix | src/App.jsx:588 | a text includes each of its prefixes |
| Text.Decimal | src/App.jsx:564 | the decimal text of a number is non-empty and all digits, and it is one digit exactly for numbers below ten |
| Text.DecimalValue | src/App.jsx:564 | the digits of the decimal text denote the number, with no leading zero unless the number is 0 |
| Text.LeadingZeros | src/App.jsx:563 | zeros in front of a digit text do not change the number it denotes |
| Text.Pad | src/App.jsx:563 | a zero-padded number is at least the requested width and all digits |
| Text.PadValue | src/App.jsx:563 | the padded text is the number's digits behind as many zeros as the width asks for, and it still denotes the number |
| Instants.CivilFromDays | src/App.jsx:563 | the proleptic Gregorian year, month and day of a day count from 1970-01-01; worked in `Instants.EpochDay` and `Instants.LeapDay` |
| Instants.YearText | src/App.jsx:563 | four digits for years 0 to 9999, otherwise a sign and six digits |
| Instants.DateText | src/App.jsx:563 | `YYYY-MM-DD` of a calendar date |
| Instants.TimeText | src/App.jsx:563 | `HH:mm:ss.sss` of a time of day; its layout and value are `Instants.TimeTextReadsBack` |
| Instants.IsoText | src/App.jsx:563 | `toISOString`: the date of the instant's day, `T`, the time within the day, `Z`; stated by `Instants.IsoTimeReadsBack` and the worked examples |
| Instants.MidnightTime | src/App.jsx:563 | the first second of a day prints as `00:00:00.` followed by the three millisecond digits |
| Instants.EpochDay | src/App.jsx:563 | day 0 is 1970-01-01 |
| Instants.LeapDay | src/App.jsx:563 | day 11016 is 2000-02-29 |
| Instants.EpochText | src/App.jsx:563 | the instant 0 prints as `1970-01-01T00:00:00.000Z` |
| Instants.LeapDayText | src/App.jsx:563 | the instant 951782400123 prints as `2000-02-29T00:00:00.123Z` |
| Instants.ClockFields | src/App.jsx:563 | the hour, minute, second and millisecond fields of a time of day are in range and add back up to it |
| Instants.TimeTextReadsBack | src/App.jsx:563 | the time of day prints as twelve characters `HH:mm:ss.sss`, and its four fields read back as that time |
| Instants.IsoTimeReadsBack | src/App.jsx:563 | every ISO text ends in `T`, the time of day within the instant's day, and `Z` |
| Violations.FieldValues | src/App.jsx:587 | the values searched include the user id, platform, campaign id and rule name |
| Violations.MatchesPlatform | src/App.jsx:584 | `All` lets every violation through; any other value only the violations of exactly that platform |
| Violations.MatchesUser | src/App.jsx:585 | an empty user filter lets everything through; otherwise the lower-cased user id must include the lower-cased filter |
| Violations.MatchesSearch | src/App.jsx:586-589 | an empty search lets everything through; otherwise some field's lower-cased text must include the lower-cased term |
| Violations.Matches | src/App.jsx:584-590 | the filter callback: all three predicates hold |
| Violations.AnyContains | src/App.jsx:587-589 | `some` is true exactly when some value's lower-cased text includes the term |
| Violations.AnyContainsAt | src/App.jsx:587-589 | a value at any position whose lower-cased text includes the term makes `some` true |
| Violations.Filter | src/App.jsx:583-590 | a violation is kept exactly when it is in the list and passes all three filters; each kept violation keeps its multiplicity, the others get none; the result is no longer than the input |
| Violations.FilterSingle | src/App.jsx:583-590 | a one-violation list is kept exactly when the violation passes |
| Violations.FilterAppend | src/App.jsx:583-590 | filtering keeps the input order: the filter of a concatenation is the concatenation of the filtered parts |
| Violations.FilterKeepsMatching | src/App.jsx:583-590 | when every violation passes, filtering returns the list unchanged |
| Violations.MatchesIgnoresCase | src/App.jsx:585-589 | user and search filters that agree up to case admit the same violations |
| Violations.FilterIgnoresCase | src/App.jsx:585-589 | user and search filters that agree up to case give the same filtered list |
| Violations.AllFiltersOpen | src/App.jsx:584-589 | with `All`, an empty user filter and an empty search, every violation passes |
| Violations.SimulatedViolation | src/App.jsx:562-572 | the record `handleAddSimulatedViolation` writes, with the random choices as parameters; what it carries is stated by `Violations.SimulatedShape` |
| Violations.SimulatedShape | src/App.jsx:562-572 | the simulated record carries the current instant and its ISO text, the current user, status `Detected`, a platform and field from the three offered, a `CMP-` campaign id of at most six upper-case base-36 characters, and a name `Simulated Rule ` followed by one or two digits that denote the rule number |
| Violations.SimulatedCampaignId | src/App.jsx:566 | `CMP-` and the upper-cased random characters make at most ten characters, all digits or upper-case letters after the prefix |
| Violations.SimulatedRuleName | src/App.jsx:564 | `Simulated Rule ` and the rule number make 16 or 17 characters, and the text after the prefix denotes the rule number |
| Violations.Mirror | src/App.jsx:541-544 | the mirrored list has one record per snapshot document, in order, each carrying its document id |
| Violations.MirrorListsStored | src/App.jsx:540-545 | every document of the collection appears in the mirrored list of its snapshot, under its document id |
| Recency.WithTimestamp | src/App.jsx:591 | the tie group of a timestamp holds exactly the violations of the list with that timestamp |
| Recency.Insert | src/App.jsx:591 | inserting adds exactly the new violation and lengthens the list by one |
| Recency.InsertDescending | src/App.jsx:591 | inserting into a newest-first list keeps it newest first |
| Recency.SortByRecency | src/App.jsx:591 | the sorted list is a permutation of the input, has its length, and is newest first |
| Recency.InsertSameTies | src/App.jsx:591 | inserting places the new violation ahead of the violations it ties with, keeping each tie group's order |
| Recency.SortIsStable | src/App.jsx:591 | sorting keeps the order of every group of equal timestamps |
| Recency.TiesDetermineOrder | src/App.jsx:591 | two newest-first lists with the same tie groups are equal |
| Recency.SortIsTheStableSort | src/App.jsx:591 | any newest-first list with the input's tie groups is the sorted list, so the model agrees with every stable sort |
| Recency.SortFixesDescending | src/App.jsx:591 | a list already newest first is left unchanged |
| Recency.SortExample | src/App.jsx:591 | timestamps T-2, T-5, T-1 come out in the order T-1, T-2, T-5 |
| ViolationView.View | src/App.jsx:583-591 | `filteredViolations`: the filtered list rearranged newest first, as `ViolationView.ViewSpec` states in full |
| ViolationView.ViewSpec | src/App.jsx:583-591 | the view holds exactly the passing violations, is a permutation of the filtered list, is newest first, and every tie group in it is the input's tie group with the failing violations removed, in input order |
| ViolationView.FilterTies | src/App.jsx:583-591 | for every timestamp, filtering the input's tie group gives the filtered list's tie group |
| ViolationView.FilterTiesAt | src/App.jsx:583-591 | filtering commutes with taking the tie group of one timestamp |
| ViolationView.StoredIsShown | src/App.jsx:540-591 | with every filter open, each stored violation is shown under its document id |
| ViolationView.ViewUnfiltered | src/App.jsx:583-591 | with every filter open, the view is the sorted list and a permutation of all violations |
| ViolationView.ViewIdempotent | src/App.jsx:583-591 | filtering and sorting the view again with the same filters changes nothing |
| ViolationView.ViewIgnoresCase | src/App.jsx:585-589 | user and search filters that agree up to case give the same view |
| ViolationView.ViewUpperCaseFilters | src/App.jsx:585-589 | upper-casing the user and search filters does not change the view |
| ViolationView.CampaignPrefixFound | src/App.jsx:588 | a campaign id beginning with `CMP-` includes `cmp-` once lower-cased |
| ViolationView.CampaignSearchFound | src/App.jsx:586-589 | searching `CMP-` matches every violation whose campaign id starts with it |
| ViolationView.SimulatedIsFound | src/App.jsx:562-589 | a simulated violation passes its own platform, its own user and the search `CMP-` |
| ViolationView.ViewOfPair | src/App.jsx:583-591 | of a passing and a failing violation, the view shows just the passing one |
| ViolationView.GoogleAdsExample | src/App.jsx:583-591 | with a Google Ads simulated violation and one on another platform, filtering by Google Ads and `CMP-` shows just the first |
| ViolationDashboard.ViolationTracking.constructor | src/App.jsx:520-527 | the dashboard starts with no violations, the `All` platform, empty user and search filters, and no message |
| ViolationDashboard.ViolationTracking.CollectionPath | src/App.jsx:530-533 | the violations path exists exactly when the database is ready and the user id is truthy, and it is the user's violations collection |
| ViolationDashboard.ViolationTracking.Shown | src/App.jsx:583-591 | the rendered list holds exactly the mirrored violations that pass the current filters, newest first |
| ViolationDashboard.ViolationTracking.SetFilterPlatform | src/App.jsx:611 | the platform filter takes the selected value |
| ViolationDashboard.ViolationTracking.SetFilterUser | src/App.jsx:631 | the user filter takes the typed value |
| ViolationDashboard.ViolationTracking.SetSearchTerm | src/App.jsx:643 | the search term takes the typed value |
| ViolationDashboard.ViolationTracking.OnSnapshot | src/App.jsx:540-545 | given a snapshot of the collection, the list becomes the mirrored snapshot |
| ViolationDashboard.ViolationTracking.OnSnapshotError | src/App.jsx:546-549 | the message becomes `Error fetching violations.` |
| ViolationDashboard.ViolationTracking.AddSimulatedViolation | src/App.jsx:554-581 | when not connected, only the not-initialised message is set. A settled write stores the simulated record under the assigned id and reports `Simulated violation added!`. A rejected write reports `Error: ` with the reason and stores nothing. |
| ViolationDashboard.SimulatedWrite | src/App.jsx:554-576 | on an empty collection, a connected dashboard's settled simulated write leaves the collection holding just the simulated record, filters still open |
| ViolationDashboard.ShowSimulatedViolation | src/App.jsx:540-591 | after that write and the next snapshot, the dashboard shows exactly the simulated violation, carrying the id the store assigned |
| ViolationDashboard.SingleSnapshot | src/App.jsx:540-545 | a one-document collection's snapshot mirrors to that document with its id |
| ViolationDashboard.ShownSingle | src/App.jsx:583-591 | with every filter open, a one-violation list is shown as it is |
| Documents.ApplyChange | src/App.jsx:177-183 | the named field takes the checked state for a checkbox and the value otherwise; every other field is unchanged |
| Documents.ApplyChanges | src/App.jsx:177-183 | after a run of edits, the fields no edit names are unchanged |
| Documents.CreateRecord | src/App.jsx:207-211 | the created record is the draft with `createdAt` set to the stamp and `createdBy` to the user; nothing else differs |
| Documents.UpdatePatch | src/App.jsx:199-202 | the update patch is the draft with `lastModifiedAt` set to the stamp; nothing else differs |
| Documents.ApplyUpdate | src/App.jsx:199-202 | fields in the patch are overwritten; all other stored fields are kept |
| Documents.MergeSuggestion | src/App.jsx:306-310 | a non-empty suggestion replaces the condition or message; an empty one keeps the previous value; other fields are unchanged |
| Documents.MirrorEntry | src/App.jsx:164-167 | the mirrored rule has the document's fields plus `id`; a stored field wins over the document id |
| Documents.Mirror | src/App.jsx:164-168 | the mirrored list has one rule per snapshot document, in order |
| Documents.UpdateKeepsIds | src/App.jsx:196-202 | saving a draft that holds the document's own id keeps every stored id field naming its document |
| Documents.CreateKeepsIds | src/App.jsx:207-211 | adding a draft with no id keeps every stored id field naming its document |
| Documents.SnapshotOfConsistentStore | src/App.jsx:163-168 | a snapshot of a consistent collection has consistent id fields |
| Documents.MirrorCarriesIds | src/App.jsx:164-167 | every rule mirrored from such a snapshot has a string id equal to its document id |
| Documents.MirrorMatchesStore | src/App.jsx:163-168 | the mirrored list shows a rule for exactly the stored documents, and no two rules share an id |
| Documents.ListCoversStore | src/App.jsx:163-168 | a list carrying a snapshot's document ids shows every stored document's id |
| Documents.ListWithinStore | src/App.jsx:163-168 | every id such a list shows belongs to a stored document |
| Documents.ListIdsDistinct | src/App.jsx:163-168 | no two entries of such a list show the same id |
| Documents.DeletedRuleIsGone | src/App.jsx:242 | after a delete, the next mirrored list holds no rule with the deleted id |
| Documents.FormEditsKeep | src/App.jsx:177-183 | form edits never touch `createdAt`, `createdBy` or `id` |
| Documents.SaveKeeps | src/App.jsx:199-202 | saving keeps a stored field when the draft either lacks it or holds the stored value |
| Documents.SaveWrites | src/App.jsx:199-202 | saving writes each field the draft holds, except `lastModifiedAt` |
| Documents.MirrorEntryId | src/App.jsx:164-167 | a document with a consistent or missing id field opens as a rule carrying its document id |
| Documents.SaveEdit | src/App.jsx:196-202 | saving an opened rule writes its id and the new `lastModifiedAt`, and keeps the stored audit fields when the rule showed them as stored |
| Documents.EditKeepsAudit | src/App.jsx:196-202 | opening a stored rule, editing form fields and saving keeps `createdAt` and `createdBy`, refreshes `lastModifiedAt`, and records the document's id |
| RuleEditor.RuleManagement.constructor | src/App.jsx:135-150 | the editor starts with no rules, the default draft, nothing edited, the modal closed, no message and no loading, with the invariant established |
| RuleEditor.RuleManagement.CollectionPath | src/App.jsx:153-156 | the rules path exists exactly when connected, and it is the user's rules collection |
| RuleEditor.RuleManagement.OnSnapshot | src/App.jsx:163-168 | the list becomes the mirrored snapshot, showing a rule for exactly the stored documents, and the invariant holds |
| RuleEditor.RuleManagement.OnSnapshotError | src/App.jsx:169-172 | the message becomes `Error fetching rules.`, and the invariant holds |
| RuleEditor.RuleManagement.HandleChange | src/App.jsx:177-183 | the draft changes in the named field only, and the invariant holds |
| RuleEditor.RuleManagement.HandleEdit | src/App.jsx:229-233 | the chosen rule becomes the edited rule and the draft, and the modal opens |
| RuleEditor.RuleManagement.CreateNewRule | src/App.jsx:331-342 | nothing is edited, the draft is the default one, and the modal opens |
| RuleEditor.RuleManagement.CloseModal | src/App.jsx:450 | the modal closes, nothing else changes, and the invariant holds |
| RuleEditor.RuleManagement.HandleSubmit | src/App.jsx:185-227 | when not connected, only the not-initialised message is set. A rejected write only reports `Error: ` with the reason. A settled update merges the draft and `lastModifiedAt` into the edited document; a settled create adds the draft with `createdAt`/`createdBy` under the assigned id. Either settled write reports its message, clears the edit, resets the draft and closes the modal. |
| RuleEditor.RuleManagement.SaveEditedRule | src/App.jsx:196-204 | the settled update stores the merged document, which carries its own id and the new `lastModifiedAt` and keeps the stored audit fields the editor showed; the form resets |
| RuleEditor.RuleManagement.AddNewRule | src/App.jsx:205-222 | the settled create stores the draft with its audit fields under the assigned id; the form resets |
| RuleEditor.RuleManagement.HandleDelete | src/App.jsx:235-249 | nothing happens when not connected or not confirmed. A settled delete removes the id and reports `Rule deleted successfully!`. A rejected one only reports `Error: ` with the reason. |
| RuleEditor.RuleManagement.SuggestRuleDetails | src/App.jsx:252-259 | a request goes out exactly when the draft's name and type are truthy. If not, only the prompt message is set. If so, loading starts and the message clears. The draft is not touched, and the invariant holds. |
| RuleEditor.RuleManagement.CompleteSuggestion | src/App.jsx:300-321 | loading always ends. A suggestion is merged into the current draft with `Suggestions applied!`. An unexpected reply or an error leaves the draft and reports its message. |
| RuleScenarios.NamingRuleFields | src/App.jsx:207-211 | the stored naming rule has exactly the form fields, the audit fields and its id, with the example values |
| RuleScenarios.CreateNamingRule | src/App.jsx:185-222 | after creating the naming rule and the next snapshot, the list holds exactly that rule with its assigned id and audit fields |
| RuleScenarios.SuggestWithoutName | src/App.jsx:252-256 | with the default draft's empty name no request goes out, the draft stays the default one, and the message asks for a rule name and type |
| RuleScenarios.TypeBudgetRule | src/App.jsx:177-183 | typing the budget rule's name and type into a new-rule form gives the default draft with those two fields set, nothing edited, and the invariant kept |
| RuleScenarios.SuggestedBudgetFields | src/App.jsx:306-310 | the merged suggestion fills the condition and message and keeps the typed name and type and the default platform and active flag |
| RuleScenarios.SuggestForBudgetRule | src/App.jsx:252-311 | once the name and type are typed, the request goes out and the returned suggestion is merged into the typed draft |
| RuleScenarios.RenamedFields | src/App.jsx:196-202 | the renamed rule has the new name, its id, the original creation time and author, and the new `lastModifiedAt` |
| RuleScenarios.RenameSavedRule | src/App.jsx:185-233 | opening, renaming and saving a stored rule merges the renamed draft into it and keeps its audit fields |

## Left out

- Firebase initialisation, anonymous or token sign-in, and the `FirebaseProvider` context are not modelled. This is external I/O. The components see a `dbReady` flag and an optional user id.
- Subscription lifecycle (`useEffect` dependencies, `unsubscribe`): not modelled. Snapshots arrive as `OnSnapshot` calls with the collection's documents in the store's order.
- The Gemini request is not modelled: prompt text, payload, `fetch` and `response.json()`. `CompleteSuggestion` receives the outcome of the call and of `JSON.parse`.
- A suggestion whose `condition` or `message` is a non-string JSON value is not modelled. A missing value arrives as the empty string.
- `window.confirm` is a parameter of `HandleDelete`.
- `Math.random` is not modelled. Its outcomes are parameters of `AddSimulatedViolation`, limited to the ranges the code can produce.
- The ids the store assigns, the error messages it raises, and whether each write settles are all parameters.
- In the rule editor, `new Date().toISOString()` is a parameter holding the ISO text. The formatting is modelled in `Instants.IsoText`, which the simulated violation uses for its `timestamp`.
- `new Date(...)` parsing in the sort is not modelled. A violation carries its stored `timestamp` text and, beside it, the `instant` that parsing gives, which the sort compares. That the two agree for a stored record is not checked. Unparseable timestamps, for which the comparator would return `NaN`, are not modelled.
- `toLocaleString` in the violations table is not modelled, nor is any other rendering (JSX, the modal, tabs, `main.jsx`).
- Case mapping covers ASCII letters only. JavaScript's `toLowerCase` and `toUpperCase` follow full Unicode.
- A violation is a record with the fields the console writes. A stored violation missing `userId` would make `toLowerCase` throw, and that case is not modelled. A stored violation carrying extra fields or its own `id` field is not modelled either.
- Text.Decimal: its own contract states only the shape of the text (non-empty, all digits, length one below ten). That the digits denote the number is the lemma `Text.DecimalValue`, kept apart so that every use of `Decimal` stays cheap to verify.
- Text.Pad: its own contract states only the length and that it is all digits. The layout (zeros, then the number's digits) and the value are the lemma `Text.PadValue`, kept apart for the same reason.
- Violations.Filter: its own contract states membership and multiplicity. That the kept records stay in input order is the lemma `Violations.FilterAppend`, which fixes the order element by element together with `Violations.FilterSingle`.
- Instants.CivilFromDays: its calendar bounds (month 1-12, day 1-31) are not proved. The field printer pads negative values as zero instead.
- Instants.IsoText: the time-of-day half is proved for every instant; the date half is stated only through worked examples (the epoch, a leap day), since its calendar bounds are not proved.
- RuleEditor.RuleManagement.HandleChange: requires a form field name, since only the form's inputs call it.
- RuleEditor.RuleManagement.HandleSubmit: accepts any draft. The browser blocks submission when name, condition or message is empty (`required`), and that is not modelled.
- RuleEditor.RuleManagement.HandleSubmit: requires a settled update to target a stored document. Firestore rejects an update of a missing document.
- RuleEditor.RuleManagement.SuggestRuleDetails: does not require that no request is running. The button is disabled while `llmLoading`, and that user-interface guard is not a precondition.
- handleSubmit, handleDelete and handleAddSimulatedViolation each await a remote write (src/App.jsx:199, 207, 242, 575). The model takes each handler as one atomic step that includes the write's outcome. Handlers that run while a write is pending are not modelled. For example, if Cancel and then Edit happen while an `addDoc` is pending, the create branch (src/App.jsx:212-222) later resets the draft and closes the modal but leaves the edited rule set. That leaves an edited rule paired with a draft without an id, a state outside `RuleManagement.Valid()`.
