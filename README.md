# OceanOs data layer in Dafny

This project models the in-memory data layer of the OceanOs marine-data platform, plus a few client and tool helpers. It proves properties of that model.

- **Submission store** (`Submissions`). Researchers submit datasets and reviewers approve or reject them. The model covers the role-filtered listing, the pending queue, lookup with its 404/403 answers, creation, review, and owner-only update of pending records. Review is a one-way state machine: `pending` goes to `approved` or `rejected` exactly once.
- **Refresh-token store** (`Auth`). It covers login against the demo users, `me`, `refresh` and `logout`. JWT signing and verification are abstract function parameters.
- **Observations** (`Observations`). A GeoJSON query with species, date and bounding-box filters; lookup; creation by appending.
- **Species** (`Species`). Case-insensitive name search, lookup, creation, and update by overlaying the request body.
- **Sensors** (`Sensors`). The sensor list, and the fixed-step time grid of `sensorData`.
- **`.env.production` rewriting** (`EnvFile`). The tunnel manager's "replace the first `KEY=` line or append one", and the choice of keys per known tunnel URL.
- **Client map-filter store** (`UIStore`).
- **Route guard** (`ProtectedRoute`).
- **Navigation bar** (`RoleBasedNav`): initials, role colour, and the link set.

`Seqs` and `Text` model the JavaScript built-ins the handlers use: `filter`, `find`, `findIndex`, `toLowerCase`, `includes` and `String(n)`. `Wrappers` holds `Option` and the `Reply` type, which is either a value or an HTTP status with an error text. `JsonValues` holds the JSON values that submission payloads carry.

## How the model is structured

Each server handler that mutates a list is a method of a class: `SubmissionStore`, `AuthService`, `ObservationStore`, `SpeciesTable`, or `Store` in `UIStore`. The list or map is a field that the method reassigns. Each method's `ensures` ties its reply and new state to a pure function of the old state, such as `ApplyReview`, `ApplyUpdate`, `Refresh` or `GeoQuery`. The lemmas state the source's promises about those functions:

- round trips such as create-then-get, login-then-refresh, login-then-me and split-then-join;
- the at-most-once review;
- confidentiality of the researcher listing;
- idempotence of `updateEnvVar`, `logout` and the overlays;
- filter pipelines equal to one conjunctive filter, in order.

## Where the code differs from its documentation

The model follows the code in each case.

- **Demo roles.** The documented roles are `government` and `researcher`. The server's demo users are `viewer`, `curator` and `admin`, so none of them passes any of the three role guards (`ProtectedRoute.DemoUsersPassNoGuard`).
- **Listing.** The listing filters only for the role `researcher`. Every other role, not just `government`, sees the whole store.
- **No role checks in the handlers.** The submission handlers do not check roles themselves, so any caller can review. The role middleware is not part of this model.
- **`dataType`.** It is stored without validation.
- **Ids.** Submission ids come from the clock and are not unique. Lookups take the first match. `CreateThenGet` assumes the new id is fresh.
- **Update order.** `updateSubmission` answers 403 for a non-owner before it checks the status.
- **`refresh`.** It does not compare the stored user id with the token's subject.

## Model

| member | source | states |
|---|---|---|
| Seqs.Filter | server/routes/submissions.ts:52-54 | `filter` returns a sub-list of the input whose elements all satisfy the predicate |
| Seqs.FilterMembership | server/routes/submissions.ts:52-54 | an element is in the filtered list exactly when it is in the input and satisfies the predicate |
| Seqs.FilterCount | server/routes/submissions.ts:52-54 | filtering keeps every occurrence of an accepted element and none of a rejected one |
| Seqs.FilterConcat | server/routes/submissions.ts:52-54 | filtering preserves the input order |
| Seqs.FilterFilter | server/routes/observations.ts:122-131 | two successive filters equal one filter by the conjunction |
| Seqs.FindIndex | server/routes/species.ts:49 | `findIndex` gives the first position that satisfies the predicate, or none exactly when no element does |
| Seqs.Find | server/routes/submissions.ts:110 | `find` gives the element at the first matching position, or none exactly when nothing matches |
| Seqs.FindAppend | server/routes/submissions.ts:96 | after a push, `find` returns the old match if there was one, otherwise the pushed element if it matches |
| Text.Lower | server/routes/species.ts:23 | `toLowerCase` (ASCII) keeps the length and maps each character |
| Text.LowerIdempotent | server/routes/species.ts:23 | lower-casing twice is lower-casing once |
| Text.Contains | server/routes/species.ts:26-27 | `includes` holds exactly when the needle occurs at some position |
| Text.ContainsEmpty | server/routes/species.ts:23-28 | the empty string occurs in every string |
| Text.NatToString | server/routes/observations.ts:164 | `String(n)` gives decimal digits without a leading zero |
| Text.NatToStringRoundTrip | server/routes/observations.ts:164 | reading the digits back gives `n` |
| Text.NatToStringInjective | server/routes/observations.ts:164 | distinct numbers render differently |
| Submissions.Listing | server/routes/submissions.ts:45-64 | a researcher gets exactly the own-or-approved submissions; every other role gets the whole store |
| Submissions.ListingCount | server/routes/submissions.ts:50-55 | the listing keeps each visible record with its multiplicity and drops invisible ones |
| Submissions.ListingInStoreOrder | server/routes/submissions.ts:50-55 | the listing keeps store order |
| Submissions.ListingConfidential | server/routes/submissions.ts:50-55 | a researcher never receives another user's pending or rejected submission |
| Submissions.PendingOf | server/routes/submissions.ts:67-77 | the pending queue holds exactly the pending submissions |
| Submissions.PendingCountAndOrder | server/routes/submissions.ts:68 | the pending queue keeps multiplicities and store order |
| Submissions.GetById | server/routes/submissions.ts:133-149 | 404 exactly for an unknown id; 403 when the first match is hidden from the researcher; otherwise that match |
| Submissions.GetByIdAgreesWithListing | server/routes/submissions.ts:137-146 | with unique ids, lookup succeeds exactly for ids the caller's listing shows |
| Submissions.CreateThenGet | server/routes/submissions.ts:80-96 | a submission created under a fresh id is read back whole, payload included, by its creator |
| Submissions.NewSubmissionHidden | server/routes/submissions.ts:84-96 | a new pending submission is hidden from every other researcher |
| Submissions.ApplyReview | server/routes/submissions.ts:105-130 | 404 exactly for an unknown id; 400 "already reviewed" for a found record that is not pending; a failure leaves the store unchanged; otherwise only that record changes: approved iff the action is "approve", reviewer, review time `now` and notes set, every other field kept |
| Submissions.ApplyUpdate | server/routes/submissions.ts:152-184 | 404 exactly for an unknown id; 403 exactly when the caller did not submit the found record; 400 "cannot update reviewed" for the owner of a record that is not pending; failures leave the store unchanged; success exactly for the owner of a pending record, replacing only that record |
| Submissions.UpdatePinsIdentity | server/routes/submissions.ts:172-178 | a successful update keeps id, submitter, submission time and status; each of the other eight fields, reviewer and review time included, takes the supplied value or else stays |
| Submissions.StepsForwardTransitive | server/routes/submissions.ts:116-124 | the "legal successor store" relation composes |
| Submissions.CreateStepsForward | server/routes/submissions.ts:84-96 | creation is a legal step |
| Submissions.ReviewStepsForward | server/routes/submissions.ts:116-124 | review is a legal step: only pending to approved/rejected |
| Submissions.UpdateStepsForward | server/routes/submissions.ts:167-178 | update is a legal step and never changes a status |
| Submissions.AtMostOnceReview | server/routes/submissions.ts:116-121 | after a successful review and any legal steps, reviewing the same id fails with 400 and changes nothing |
| Submissions.UpdateCannotReopen | server/routes/submissions.ts:167-177 | an update never returns a reviewed submission to pending |
| Submissions.SeedRecorded | server/routes/submissions.ts:5-42 | every seeded non-pending record names its reviewer and review time |
| Submissions.ReviewKeepsRecords | server/routes/submissions.ts:121-123 | review keeps "every reviewed record names its reviewer and time" |
| Submissions.UpdateKeepsRecords | server/routes/submissions.ts:172-178 | update keeps that invariant |
| Submissions.SubmissionStore.constructor | server/routes/submissions.ts:5-42 | the store starts with the two seeded records |
| Submissions.SubmissionStore.GetSubmissions | server/routes/submissions.ts:45-64 | returns the listing of the current store |
| Submissions.SubmissionStore.GetPendingSubmissions | server/routes/submissions.ts:67-77 | returns the pending queue |
| Submissions.SubmissionStore.GetSubmissionById | server/routes/submissions.ts:133-149 | returns the lookup answer |
| Submissions.SubmissionStore.CreateSubmission | server/routes/submissions.ts:80-102 | appends exactly the new pending record, a legal step |
| Submissions.SubmissionStore.ReviewSubmission | server/routes/submissions.ts:105-130 | reply and new store are those of `ApplyReview`, a legal step |
| Submissions.SubmissionStore.UpdateSubmission | server/routes/submissions.ts:152-184 | reply and new store are those of `ApplyUpdate`, a legal step |
| Auth.UserByEmail | server/routes/auth.ts:24 | finds a demo user with that email, exactly when one exists |
| Auth.UserById | server/routes/auth.ts:42 | finds a demo user with that id, exactly when one exists |
| Auth.IssueSession | server/routes/auth.ts:22-35 | login succeeds exactly for a known email (no password consulted), else 401; access token signs {sub, role}, refresh token {sub} |
| Auth.DropSpaces | server/routes/auth.ts:39 | removes exactly the leading run of `\s` characters |
| Auth.StripBearer | server/routes/auth.ts:38-39 | the token is a suffix of the header; the header changes exactly when it starts with "Bearer" in any case followed by whitespace, and then "Bearer" and the whole whitespace run after it are removed, so the token is empty or starts with a non-space |
| Auth.StripBearerOfBearer | server/routes/auth.ts:39 | "Bearer " + token reads back as the token |
| Auth.Me | server/routes/auth.ts:37-48 | 401 exactly when verification fails; 404 exactly when the subject is no user; when the token verifies to a known subject, `Ok` of that user; no other failure status |
| Auth.Refresh | server/routes/auth.ts:50-64 | 401 for a missing or unrecorded token before verification; 401 on failed verification or unknown subject; otherwise an access token for that user's id and role |
| Auth.Revoke | server/routes/auth.ts:66-69 | logout forgets exactly the given token and keeps every other entry |
| Auth.RevokeIdempotent | server/routes/auth.ts:68 | logging out twice is logging out once |
| Auth.RefreshAfterLogout | server/routes/auth.ts:50-70 | after logout, refresh with that token fails with 401 |
| Auth.LoginThenRefresh | server/routes/auth.ts:22-64 | the refresh token recorded at login yields an access token for the same user and role |
| Auth.LoginThenMe | server/routes/auth.ts:22-48 | `me` with the login's access token as a bearer header returns the logged-in user |
| Auth.AuthService.constructor | server/routes/auth.ts:13 | the refresh store starts empty |
| Auth.AuthService.Login | server/routes/auth.ts:22-35 | replies as `IssueSession`; on success records the refresh token for the user id, and only then |
| Auth.AuthService.RefreshToken | server/routes/auth.ts:50-64 | replies as `Refresh` and leaves the store unchanged (no rotation) |
| Auth.AuthService.Logout | server/routes/auth.ts:66-70 | always succeeds; the store becomes `Revoke` of the old one |
| Observations.BySpeciesIsFilter | server/routes/observations.ts:122 | the species stage filters by exact species id when a non-empty id is given |
| Observations.ByStartIsFilter | server/routes/observations.ts:123 | the start stage keeps `start <= observedAt` |
| Observations.ByEndIsFilter | server/routes/observations.ts:124 | the end stage keeps `observedAt <= end` |
| Observations.ByBoxIsFilter | server/routes/observations.ts:125-131 | the box stage applies only to a four-number box and keeps points inside it, borders included |
| Observations.SelectedIsFilter | server/routes/observations.ts:121-131 | the successive filters are one conjunctive filter, in list order |
| Observations.Features | server/routes/observations.ts:135-149 | one feature per observation, in order, with its id, geometry and eight properties |
| Observations.GeoQuery | server/routes/observations.ts:115-153 | features are exactly those of observations passing every active filter; `meta.count` is their number |
| Observations.NoFilterSelectsAll | server/routes/observations.ts:121-131 | with no filter every observation is returned, in order |
| Observations.GeospatialInOrder | server/routes/observations.ts:121-131 | the query keeps list order |
| Observations.ObservationById | server/routes/observations.ts:155-160 | 404 exactly when no observation has the id, otherwise the first match |
| Observations.NewObservation | server/routes/observations.ts:162-166 | the body's id wins over the generated `"obs_" + (length + 1)` |
| Observations.GeneratedIdsDistinct | server/routes/observations.ts:164 | ids generated at different lengths differ |
| Observations.SeedHasGeneratedIds | server/routes/observations.ts:4-113 | the eight seeded ids are the generated ones |
| Observations.CreateKeepsIdsFresh | server/routes/observations.ts:164-166 | while ids are the generated ones, a creation without an id gets a fresh id and keeps that property |
| Observations.ObservationStore.constructor | server/routes/observations.ts:4-113 | starts with the eight seeded observations |
| Observations.ObservationStore.Geospatial | server/routes/observations.ts:115-153 | the staged filtering gives the `GeoQuery` reply |
| Observations.ObservationStore.GetObservation | server/routes/observations.ts:155-160 | returns the lookup answer |
| Observations.ObservationStore.CreateObservation | server/routes/observations.ts:162-168 | appends exactly the new observation at the end |
| Species.Search | server/routes/species.ts:22-30 | results are exactly the species whose lowered scientific or common name contains the lowered query; total counts them |
| Species.SearchIgnoresCase | server/routes/species.ts:23 | a query and its lower-cased form give the same reply |
| Species.EmptySearchMatchesAll | server/routes/species.ts:23-28 | a missing or empty query returns every species, in order |
| Species.SearchInOrder | server/routes/species.ts:24-28 | results keep table order |
| Species.SpeciesById | server/routes/species.ts:32-37 | 404 exactly when no species has the id, otherwise the first match |
| Species.NewSpecies | server/routes/species.ts:39-42 | the body's id wins over the generated `"sp_" + (length + 1)` |
| Species.CreateThenGet | server/routes/species.ts:39-44 | a created species with a fresh id is found by it |
| Species.Overlay | server/routes/species.ts:51 | fields the body omits are kept |
| Species.OverlaySupplied | server/routes/species.ts:51 | fields the body supplies, the id included, overwrite |
| Species.OverlayIdempotent | server/routes/species.ts:51 | overlaying twice is overlaying once |
| Species.OverlayEmpty | server/routes/species.ts:51 | an empty body changes nothing |
| Species.ApplyUpdate | server/routes/species.ts:47-53 | 404 exactly for an unknown id (table unchanged); otherwise the first match is overlaid and every other entry and the length stay |
| Species.UpdateThenGet | server/routes/species.ts:47-52 | after an update that keeps the id, lookup returns the updated record |
| Species.UpdateIdempotent | server/routes/species.ts:47-52 | repeating such an update changes nothing more |
| Species.SpeciesTable.constructor | server/routes/species.ts:3-20 | starts with the two seeded species |
| Species.SpeciesTable.SearchSpecies | server/routes/species.ts:22-30 | returns the `Search` reply |
| Species.SpeciesTable.GetSpecies | server/routes/species.ts:32-37 | returns the lookup answer |
| Species.SpeciesTable.CreateSpecies | server/routes/species.ts:39-45 | appends exactly the new species at the end |
| Species.SpeciesTable.UpdateSpecies | server/routes/species.ts:47-53 | reply and new table are those of `ApplyUpdate` |
| Sensors.ListSensors | server/routes/sensors.ts:3-10 | lists both sensors; `meta.total` equals their number |
| Sensors.StepFor | server/routes/sensors.ts:18 | one minute exactly for "raw" and "1min", one hour otherwise |
| Sensors.SensorData | server/routes/sensors.ts:12-23 | echoes id and aggregation (default "1hr"); points at `t0 + i*step` with their samples, all within `[t0, t1]`, none missing at the end, `(t1 - t0) / step + 1` of them, or none when `t0 > t1` |
| EnvFile.LineEnd | tools/tunnel-manager.cjs:133 | `.*$` stops at the first line terminator or the end |
| EnvFile.FirstKeyLine | tools/tunnel-manager.cjs:133-136 | a position found is at or after the start of the search and begins a line with `KEY=` |
| EnvFile.FirstKeyLineLeftmost | tools/tunnel-manager.cjs:133-136 | no line starting with `KEY=` lies before the position found, and none at all when nothing is found |
| EnvFile.Separator | tools/tunnel-manager.cjs:139 | empty exactly when the text ends with a newline, a newline otherwise |
| EnvFile.Replaced | tools/tunnel-manager.cjs:137 | the text before the match is kept, `KEY=value` takes the place of the matched line, the rest after its end is kept |
| EnvFile.Appended | tools/tunnel-manager.cjs:139 | the text is kept and followed by the separator, `KEY=value` and a newline |
| EnvFile.UpdateEnvVar | tools/tunnel-manager.cjs:132-141 | replaces only the first `KEY=` line, text before and after kept; otherwise appends, separated by a newline unless the text ends with one |
| EnvFile.EmptyContent | tools/tunnel-manager.cjs:139 | empty text becomes `"\nKEY=value\n"` |
| EnvFile.ResultHasLine | tools/tunnel-manager.cjs:132-141 | the result has a whole line equal to `KEY=value` |
| EnvFile.ReplacedHasLine | tools/tunnel-manager.cjs:136-137 | after a replacement, `KEY=value` is a whole line where the match was |
| EnvFile.AppendedHasLine | tools/tunnel-manager.cjs:139 | after an append, `KEY=value` is a whole line just after the separator |
| EnvFile.ReplacedLine | tools/tunnel-manager.cjs:133-137 | after a replacement the first `KEY=` line is still where the match was and is exactly `KEY=value` up to its end |
| EnvFile.AppendedLine | tools/tunnel-manager.cjs:133-139 | after an append the first `KEY=` line is the appended one, `KEY=value` followed by a newline |
| EnvFile.AppendedIsFirst | tools/tunnel-manager.cjs:133-139 | a text without a `KEY=` line gains its first one after the separator |
| EnvFile.UpdateIdempotent | tools/tunnel-manager.cjs:132-141 | for a value without line terminators, updating twice with the same key and value equals updating once |
| EnvFile.ReplaceIdempotent | tools/tunnel-manager.cjs:136-137 | the replacing branch is idempotent |
| EnvFile.ReplacedRewrite | tools/tunnel-manager.cjs:136-137 | updating a replaced text with the same key and value gives it back |
| EnvFile.AppendedRewrite | tools/tunnel-manager.cjs:136-139 | updating an appended text with the same key and value gives it back |
| EnvFile.KeyLineFixed | tools/tunnel-manager.cjs:133-137 | when the first `KEY=` line already is the whole line `KEY=value`, the update returns the text unchanged |
| EnvFile.AppendIdempotent | tools/tunnel-manager.cjs:139 | after an append, the next update replaces the appended line by itself |
| EnvFile.AppendedLineIsFirst | tools/tunnel-manager.cjs:133-139 | after an append, the first `KEY=` line is the appended one |
| EnvFile.UpdateAll | tools/tunnel-manager.cjs:117-125 | no keys leave the text unchanged |
| EnvFile.SameStartSameKey | tools/tunnel-manager.cjs:133 | two plain keys open the same line only when they are equal |
| EnvFile.KeptByAppend | tools/tunnel-manager.cjs:139 | an append keeps every whole one-line line of the text |
| EnvFile.KeptByReplace | tools/tunnel-manager.cjs:133-137 | replacing the first line of another plain key keeps a whole line `K=v` with a one-line value |
| EnvFile.ReplacedKeepsLater | tools/tunnel-manager.cjs:137 | a replacement keeps, shifted, a whole line after the replaced one |
| EnvFile.ReplacedKeepsEarlier | tools/tunnel-manager.cjs:137 | a replacement keeps a whole one-line line before the replaced one |
| EnvFile.UpdateKeepsLine | tools/tunnel-manager.cjs:132-141 | updating another plain key keeps a whole line `K=v` whose value is one line |
| EnvFile.UpdateAllKeepsLine | tools/tunnel-manager.cjs:117-125 | updating a list of other keys keeps such a line |
| EnvFile.UpdateAllSetsKeys | tools/tunnel-manager.cjs:117-125 | after updating distinct plain keys with a one-line value, every one of them has its whole line `KEY=value` |
| EnvFile.UpdateEnvFile | tools/tunnel-manager.cjs:105-130 | nothing is written exactly when neither URL is known; with one URL only its two keys are updated; with both, the API keys and then the Ollama keys |
| EnvFile.EnvFileSetsKeys | tools/tunnel-manager.cjs:105-130 | the written text has a whole line `KEY=url` for both API keys when the API URL is known and for both Ollama keys when the Ollama URL is known |
| EnvFile.KnownKeys | tools/tunnel-manager.cjs:117-125 | the four keys are distinct and no API key is an Ollama key |
| UIStore.Initial | client/stores/ui.ts:20-25 | no date bounds, species or box; viewport (-122.43, 37.77, 5); community reports on |
| UIStore.MergeViewport | client/stores/ui.ts:29 | supplied viewport fields overwrite, the others stay |
| UIStore.MergeTwice | client/stores/ui.ts:29 | two merges are one merge with the later patch on top |
| UIStore.MergeIdempotent | client/stores/ui.ts:29 | merging the same patch again changes nothing |
| UIStore.MergeEmpty | client/stores/ui.ts:29 | an empty patch keeps the viewport |
| UIStore.WithDateRange | client/stores/ui.ts:26 | replaces the date range only |
| UIStore.WithSpeciesId | client/stores/ui.ts:27 | replaces the species only |
| UIStore.WithBBox | client/stores/ui.ts:28 | replaces the box only |
| UIStore.WithViewport | client/stores/ui.ts:29 | merges the viewport, nothing else changes |
| UIStore.Toggled | client/stores/ui.ts:30 | flips community reports, nothing else changes |
| UIStore.ToggleTwice | client/stores/ui.ts:30 | toggling twice restores the state |
| UIStore.EmptyViewportPatch | client/stores/ui.ts:29 | an empty viewport patch leaves the whole state unchanged |
| UIStore.SettersCommute | client/stores/ui.ts:26-28 | the three replacing setters commute |
| UIStore.Store.constructor | client/stores/ui.ts:20-25 | starts in the initial state |
| UIStore.Store.SetDateRange | client/stores/ui.ts:26 | new state is `WithDateRange` of the old |
| UIStore.Store.SetSpeciesId | client/stores/ui.ts:27 | new state is `WithSpeciesId` of the old |
| UIStore.Store.SetBBox | client/stores/ui.ts:28 | new state is `WithBBox` of the old |
| UIStore.Store.SetViewport | client/stores/ui.ts:29 | new state is `WithViewport` of the old |
| UIStore.Store.ToggleCommunityReports | client/stores/ui.ts:30 | new state is `Toggled` of the old |
| ProtectedRoute.Join | client/components/ProtectedRoute.tsx:46 | `join` of no items is empty and of one item is that item |
| ProtectedRoute.Decide | client/components/ProtectedRoute.tsx:13-54 | spinner while loading; login form without a user; denial exactly when the required role (checked first) or the role list fails, with the required-role message for the first and the role-list message for the second; otherwise the content |
| ProtectedRoute.NoConstraintAdmitsEveryone | client/components/ProtectedRoute.tsx:29-53 | without constraints, or with an empty required role, every signed-in user passes |
| ProtectedRoute.EmptyRoleListDeniesEveryone | client/components/ProtectedRoute.tsx:41-51 | an empty role list denies every user |
| ProtectedRoute.SingleRoleGuards | client/components/ProtectedRoute.tsx:57-63 | `GovernmentOnly` admits exactly "government", `ResearcherOnly` exactly "researcher" |
| ProtectedRoute.AuthenticatedOnlyGuard | client/components/ProtectedRoute.tsx:65-67 | `AuthenticatedOnly` admits exactly those two roles, and its denial is the role-list message for them |
| ProtectedRoute.AuthenticatedOnlyRoles | client/components/ProtectedRoute.tsx:46 | the denial lists `government, researcher` |
| ProtectedRoute.DemoUsersPassNoGuard | client/components/ProtectedRoute.tsx:57-67 | no demo user of the server passes any of the three guards |
| RoleBasedNav.Split | client/components/RoleBasedNav.tsx:45 | `split(" ")` gives at least one piece, none containing a space |
| RoleBasedNav.SplitJoin | client/components/RoleBasedNav.tsx:45 | joining the pieces with spaces gives the name back |
| RoleBasedNav.WordStarts | client/components/RoleBasedNav.tsx:44-48 | reference definition: the characters that begin a word, none of them a space |
| RoleBasedNav.FirstsAreWordStarts | client/components/RoleBasedNav.tsx:44-48 | the first characters of the pieces are exactly the word starts; empty pieces add nothing |
| RoleBasedNav.TakeTwo | client/components/RoleBasedNav.tsx:49 | `slice(0, 2)` is the prefix of length at most two |
| RoleBasedNav.InitialsAreWordStarts | client/components/RoleBasedNav.tsx:43-50 | initials are at most two characters: the upper-cased first word starts |
| RoleBasedNav.RoleColor | client/components/RoleBasedNav.tsx:52-61 | blue exactly for government, green exactly for researcher, gray for all else |
| RoleBasedNav.NavLinks | client/components/RoleBasedNav.tsx:23-149 | nothing without a user; dashboard, modules and map always; researcher links iff the researcher flag; government links iff the government flag; no link outside those lists |
| RoleBasedNav.RoleLinksNeverShownAsWritten | client/components/RoleBasedNav.tsx:21 | with the flags as the bar receives them, no user is offered upload or approvals |
| RoleBasedNav.LinksFollowRole | client/components/RoleBasedNav.tsx:90-133 | with flags taken from the role, each role sees the common links, its own role links, no other role's links and nothing outside the three lists |
| RoleBasedNav.NoUserNoBar | client/components/RoleBasedNav.tsx:23-25 | with no user the bar renders nothing |

## Findings

| source | as written | input that shows it | evidently intended | confidence | as-written member | corrected member |
|---|---|---|---|---|---|---|
| client/components/RoleBasedNav.tsx:21 | `isGovernment` and `isResearcher` are read from the context of `@/hooks/auth` (client/hooks/auth.tsx:47). That context provides only `user`, `loading`, `login` and `logout`, so both flags are undefined. | any signed-in user with role "researcher" or "government" | the flags follow the role, as client/hooks/useAuth.tsx:69-70 computes them, so each role sees its own links | medium, not executed | RoleBasedNav.RoleLinksNeverShownAsWritten | RoleBasedNav.LinksFollowRole |

## Left out

- Auth: JWT signing, secrets and expiry are left out. Signing and verification are the parameters `sign` and `verify`, and a failed `jwt.verify` is a `None` from `verify`. The round-trip lemmas assume a signer and verifier that agree (`Faithful`).
- Auth.IssueSession: the signer is a function of the claims and the key alone. `jwt.sign` also writes the issue time `iat`, so logins in different seconds get different refresh tokens. In the model every login of a user gets the same token, and one logout revokes the tokens of all those logins.
- Auth.AuthService.Login: the password is taken but never read, as in the code. Response timestamps (`issuedAt`, `fetchedAt`, `rotatedAt`) are not modelled.
- Submissions.SubmissionStore.CreateSubmission: the clock-based id and the submission time are the parameters `freshId` and `now`. Nothing guarantees the id is fresh; `CreateThenGet` assumes it.
- Submissions: the caller that middleware attaches to the request is the `Caller` parameter. The success `message` texts and `meta` timestamps of the replies are not modelled. `meta.total` is just the length of the returned list.
- Submissions.StepsForward: records appended by creation are not constrained. It states only what happens to existing records.
- Observations and Species: request bodies are typed records. A body's extra or missing JSON fields are not modelled, except that an optional `id` overrides the generated one.
- Submissions.NewRequest and Submissions.Patch: request bodies are typed records here too. `createSubmission` stores `undefined` for a missing field, `Object.assign` copies extra keys of an update body onto the record, and an explicit `undefined` in an update body overwrites a field. None of these is modelled: a patch field is either absent or a value.
- Observations.GeoQuery: times are millisecond integers and the box is four reals. Parsing query strings, invalid dates and `NaN` coordinates are not modelled. The constant `type` fields of the GeoJSON are omitted.
- Sensors.SensorData: `now`, the parsed `start` and `end` and the sample function are parameters. The `Math.sin` value, ISO time strings and the unit string are not modelled. A missing or empty `start`/`end` counts as absent.
- EnvFile.UpdateEnvVar: the key must be letters, digits and underscores, and the value must hold no `$`. The code builds a regular expression from the key and uses the value as a replacement pattern, and neither is escaped. The four keys used are plain, and tunnel URLs hold no `$`.
- EnvFile.UpdateIdempotent, EnvFile.UpdateAllSetsKeys and EnvFile.EnvFileSetsKeys hold only for values without line terminators. The code is not idempotent for a multi-line value, because the second update replaces only the value's first line. A later key's update can also rewrite a line inside such a value. Tunnel URLs are one line.
- EnvFile.UpdateEnvFile: reading and writing `.env.production` are left out. The existing text (or none) is a parameter and the written text is the result. Starting ngrok, process handling and logging are left out.
- Text.Lower and Text.Upper map ASCII letters only. Full Unicode case mapping is left out.
- UIStore: zustand's subscription and re-rendering are left out. Only the state transitions are modelled. A viewport patch field is either absent or a number: an explicit `undefined` in a `Partial<Viewport>`, which `{...s.viewport, ...v}` copies onto the viewport, is not modelled.
- RoleBasedNav.Initials: a `string` is a sequence of characters here. The code's `n[0]` and `slice(0, 2)` work on UTF-16 code units, so they split a character outside the Basic Multilingual Plane.
- ProtectedRoute and RoleBasedNav: rendering, styling, the highlighted current path, navigation callbacks and the logout handler are left out. Only what is shown to whom is modelled.
- client/api/api.ts is not part of this model. Its silent-refresh interceptor is about concurrent requests and browser storage.
- The AI, statistics and dataset routes and the Express wiring are not part of this model. They depend on randomness, clocks, network calls or framework setup.
