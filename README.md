# Lost & Found portal — a verified model of its stores and page logic

The Lost & Found portal is a browser application for a school. Students
browse found items, report new ones and claim them. An administrator
approves or rejects items and claims. All of its behaviour that is not
presentation lives in five in-memory stores and in the decision logic of
seven pages. This project models both in Dafny and proves what they
promise.

- **Stores.** Each store is a class whose fields are the store's state.
  Each mutator is a method that assigns a pure function of the old state.
  The properties are stated about those functions.
  - `ItemsContext`: found items and claim requests.
  - `ClaimsContext`: the separate claims portal, with ids of the form
    `CLM-2026-nnn`.
  - `NotificationsContext`: read flags and three channel switches.
  - `AuthContext`: the admin session.
  - `ThemeContext`: colour schemes and `getColor`.
- **Pages.** They are modelled by their pure logic and by the handlers
  that step their state and call the stores.
  - `AdminPage`: statistics and the approve/reject workflows.
  - `ItemsListingPage`: search, filter and stable sort.
  - `SubmitItemPage`: field validation, the form-wide loop and submit.
  - `ClaimsPage`: claim submission and the status lookup.
  - `ItemDetailPage`: item lookup, claim form and gating by status.
  - `LoginPage`: form check, login attempt and redirect.
  - `SmartNotifications`: per-channel preference switches.
- **Helper modules.**
  - `Text` models the string built-ins the code relies on: `trim` and
    `\s` (the ECMAScript whitespace set), `toLowerCase` (ASCII),
    `includes`, `startsWith`, `padStart` and `String(n)`.
  - `Seqs` models `filter`, `find`, `findIndex` and the stable `sort`.

Clock values are parameters: ids from `Date.now()`, timestamps (integers)
and "today" (a day number for dates). Browser storage is replaced by the
value it would yield.

Where the prose description of the system and the code disagree, the model
follows the code:
- Approving a claim marks its item claimed inside the store itself
  (`updateClaimStatus`). It is not left to the caller.
- The date check of the submit form has no lower bound, only "not in the
  future".
- The items are stored under `lostAndFoundItems`/`lostAndFoundClaims`, not
  under `items`/`claims`. Storage itself is not modelled.

## Model

| member | source | states |
|---|---|---|
| `ItemsContext.NewItem` | src/app/contexts/ItemsContext.tsx:115-121 | the added record keeps every draft field, takes the given id and timestamp, and its status is forced to pending |
| `ItemsContext.ItemsProvider.constructor` | src/app/contexts/ItemsContext.tsx:97-105 | items start as the stored list or the four sample items; claims start as the stored list or empty |
| `ItemsContext.ItemsProvider.AddItem` | src/app/contexts/ItemsContext.tsx:115-123 | the list grows by one, the pending item with the fresh id sits at index 0 and the old list follows unchanged; claims untouched; unique ids stay unique when the id is fresh |
| `ItemsContext.WithItemStatus` | src/app/contexts/ItemsContext.tsx:125-129 | length and order kept; every item with the id gets the new status and nothing else changes; every other item is untouched |
| `ItemsContext.ItemStatusIdempotent` | src/app/contexts/ItemsContext.tsx:125-129 | setting the same status twice equals setting it once |
| `ItemsContext.ItemStatusAbsentId` | src/app/contexts/ItemsContext.tsx:125-129 | an absent id leaves the list unchanged |
| `ItemsContext.ItemStatusKeepsIds` | src/app/contexts/ItemsContext.tsx:125-129 | a status update keeps item ids unique |
| `ItemsContext.ItemsProvider.UpdateItemStatus` | src/app/contexts/ItemsContext.tsx:125-129 | items become the status update of the old list; claims untouched; unique ids preserved |
| `ItemsContext.WithoutItem` | src/app/contexts/ItemsContext.tsx:131-133 | exactly the items whose id differs, each as often as before, in their original relative order |
| `ItemsContext.DeleteAbsentId` | src/app/contexts/ItemsContext.tsx:131-133 | deleting an absent id is a no-op |
| `ItemsContext.DeleteUniqueShrinks` | src/app/contexts/ItemsContext.tsx:131-133 | with unique ids, deleting a present id shortens the list by exactly one, an absent one by nothing |
| `ItemsContext.DeleteKeepsIdsUnique` | src/app/contexts/ItemsContext.tsx:131-133 | deletion keeps item ids unique |
| `ItemsContext.ItemsProvider.DeleteItem` | src/app/contexts/ItemsContext.tsx:131-133 | items become the filtered list, the id is gone, claims untouched |
| `ItemsContext.ItemsProvider.AddClaim` | src/app/contexts/ItemsContext.tsx:135-143 | a pending claim with the given id, the draft's fields and the timestamp is prepended; the rest and the items are unchanged |
| `ItemsContext.WithClaimStatus` | src/app/contexts/ItemsContext.tsx:145-148 | only claims with the id change, and only in their status; length and order kept |
| `ItemsContext.ItemsAfterClaimStatus` | src/app/contexts/ItemsContext.tsx:150-156 | items are untouched unless the status is approved and a claim with the id existed before the call; then the first such claim's item is set to claimed |
| `ItemsContext.ApprovedClaimMarksItem` | src/app/contexts/ItemsContext.tsx:150-156 | after approving an existing claim, every item with that claim's item id reads claimed and the item count is unchanged |
| `ItemsContext.ItemsProvider.UpdateClaimStatus` | src/app/contexts/ItemsContext.tsx:145-156 | claims get the status update; items get the approval side effect computed from the claims as they were before the call |
| `ClaimsContext.ClaimIdFormat` | src/app/contexts/ClaimsContext.tsx:59 | the id is `CLM-2026-` then at least three digits that read back as the number: zero-padded below 1000 and never truncated |
| `ClaimsContext.ClaimIdInjective` | src/app/contexts/ClaimsContext.tsx:59 | distinct numbers give distinct ids |
| `ClaimsContext.LowerClaimIdInjective` | src/app/contexts/ClaimsContext.tsx:59-75 | distinct numbers give ids that still differ after lower-casing |
| `ClaimsContext.SeedIds` | src/app/contexts/ClaimsContext.tsx:26-46 | the three seed ids are the ids of numbers 1, 2 and 3 |
| `ClaimsContext.SeedWellNumbered` | src/app/contexts/ClaimsContext.tsx:24-55 | the seed list carries the ids of exactly 1..3, pairwise distinct |
| `ClaimsContext.SubmitKeepsNumbering` | src/app/contexts/ClaimsContext.tsx:57-70 | prepending the claim numbered count+1 keeps the ids exactly the ids of 1..count and pairwise distinct |
| `ClaimsContext.ClaimsProvider.constructor` | src/app/contexts/ClaimsContext.tsx:24-55 | the store starts with the three seed claims and is well numbered |
| `ClaimsContext.ClaimsProvider.SubmitClaim` | src/app/contexts/ClaimsContext.tsx:57-70 | the returned id is that of count+1 and is the id of the new pending head; the old list follows; the numbering invariant is preserved |
| `ClaimsContext.ClaimsByEmail` | src/app/contexts/ClaimsContext.tsx:82-84 | the order-preserving subsequence of the claims whose email equals the query ignoring case, each as often as in the store |
| `ClaimsContext.GetClaim` | src/app/contexts/ClaimsContext.tsx:72-80 | the first claim whose id matches ignoring case; when there is none, the first whose email matches; nothing exactly when neither matches |
| `ClaimsContext.GetClaimFallsBackToNewestByEmail` | src/app/contexts/ClaimsContext.tsx:77-79 | when no id matches, the lookup returns the head of `getClaimsByEmail`, or nothing when that is empty |
| `ClaimsContext.IssuedIdFindsItsClaim` | src/app/contexts/ClaimsContext.tsx:59-75 | in a well-numbered store, looking up any id the store issued finds the claim with exactly that id |
| `NotificationsContext.UnreadCount` | src/app/contexts/NotificationsContext.tsx:84 | at most the list length, and zero exactly when no notification is unread |
| `NotificationsContext.MarkRead` | src/app/contexts/NotificationsContext.tsx:86-92 | length and order kept; notifications with the id are set read with their other fields unchanged; every other entry is untouched |
| `NotificationsContext.MarkReadNeverIncreases` | src/app/contexts/NotificationsContext.tsx:84-92 | marking one notification read never increases the unread count |
| `NotificationsContext.MarkReadUniqueCount` | src/app/contexts/NotificationsContext.tsx:84-92 | with unique ids, the unread count drops by exactly one if the target was unread and otherwise stays the same |
| `NotificationsContext.MarkAllRead` | src/app/contexts/NotificationsContext.tsx:94-98 | every entry is kept with only its read flag cleared |
| `NotificationsContext.MarkAllReadClears` | src/app/contexts/NotificationsContext.tsx:84-98 | after marking all read, the unread count is zero |
| `NotificationsContext.MarkAllReadIdempotent` | src/app/contexts/NotificationsContext.tsx:94-98 | marking all read twice equals marking once |
| `NotificationsContext.RunNeverIncreases` | src/app/contexts/NotificationsContext.tsx:86-98 | no sequence of mark-one and mark-all operations ever increases the unread count |
| `NotificationsContext.Toggle` | src/app/contexts/NotificationsContext.tsx:100-105 | exactly the named switch is negated |
| `NotificationsContext.ToggleFlipsOnlyThat` | src/app/contexts/NotificationsContext.tsx:100-105 | the toggled channel's switch flips and every other channel keeps its switch |
| `NotificationsContext.ToggleTwice` | src/app/contexts/NotificationsContext.tsx:100-105 | toggling the same channel twice restores the switches |
| `NotificationsContext.SeedUnread` | src/app/contexts/NotificationsContext.tsx:30-84 | the five seed notifications start with three unread |
| `NotificationsContext.SeedUniqueIds` | src/app/contexts/NotificationsContext.tsx:30-76 | the seed notifications have distinct ids |
| `NotificationsContext.NotificationsProvider.constructor` | src/app/contexts/NotificationsContext.tsx:30-82 | the store starts with the seed notifications (unique ids) and every switch on |
| `NotificationsContext.NotificationsProvider.MarkAsRead` | src/app/contexts/NotificationsContext.tsx:86-92 | the list becomes the mark-one update, the switches are untouched and the unread count does not grow |
| `NotificationsContext.NotificationsProvider.MarkAllAsRead` | src/app/contexts/NotificationsContext.tsx:94-98 | the list becomes the mark-all update, the switches are untouched and the unread count is zero |
| `NotificationsContext.NotificationsProvider.ToggleNotification` | src/app/contexts/NotificationsContext.tsx:100-105 | the switches become the toggle of the old ones and the notifications are untouched |
| `AuthContext.InitialFlag` | src/app/contexts/AuthContext.tsx:19-22 | the starting flag is true exactly when the stored text is "true" |
| `AuthContext.AfterLogin` | src/app/contexts/AuthContext.tsx:13-46 | with the credentials admin/admin123 the session is signed in as that user; with any others it is unchanged |
| `AuthContext.AfterLogout` | src/app/contexts/AuthContext.tsx:48-53 | the session is signed out with no user |
| `AuthContext.RunKeepsConsistent` | src/app/contexts/AuthContext.tsx:38-53 | from a consistent session, any sequence of logins and logouts keeps "signed in iff a user is recorded" and records only the admin |
| `AuthContext.FailedLoginsStaySignedOut` | src/app/contexts/AuthContext.tsx:38-53 | from a signed-out session, logins that never present the admin credentials never sign in |
| `AuthContext.AuthProvider.constructor` | src/app/contexts/AuthContext.tsx:19-27 | the flag is decoded from storage; the user is the stored one |
| `AuthContext.AuthProvider.Login` | src/app/contexts/AuthContext.tsx:38-46 | returns true iff the credentials match; the new session is the login transition; consistency is kept |
| `AuthContext.AuthProvider.Logout` | src/app/contexts/AuthContext.tsx:48-53 | the new session is the logout transition, which is consistent |
| `ThemeContext.ParseKey` | src/app/contexts/ThemeContext.tsx:189 | a string is recognised as a colour key only if it is that key's spelling |
| `ThemeContext.ParseKeyNames` | src/app/contexts/ThemeContext.tsx:189 | a string names a key exactly when it is that key's spelling |
| `ThemeContext.PaletteNonEmpty` | src/app/contexts/ThemeContext.tsx:14-190 | no palette entry is empty, so the `||` fallback never overrides a defined colour |
| `ThemeContext.GetColor` | src/app/contexts/ThemeContext.tsx:188-190 | a known key yields the current scheme's entry; any other string yields itself |
| `ThemeContext.DarkKeepsAccents` | src/app/contexts/ThemeContext.tsx:33-75 | the dark scheme's nine accent entries equal the light scheme's |
| `ThemeContext.ColourBlindKeepsBase` | src/app/contexts/ThemeContext.tsx:15-169 | the three colour-blind schemes share light's background, text and border entries |
| `ThemeContext.InitialTheme` | src/app/contexts/ThemeContext.tsx:173-176 | the stored scheme, or light when nothing is stored |
| `ThemeContext.ThemeProvider.constructor` | src/app/contexts/ThemeContext.tsx:173-176 | the store starts in the initial scheme |
| `ThemeContext.ThemeProvider.SetTheme` | src/app/contexts/ThemeContext.tsx:184-186 | the scheme becomes the given one |
| `ThemeContext.ThemeProvider.Color` | src/app/contexts/ThemeContext.tsx:188-190 | the lookup uses the current scheme |
| `AdminPage.PendingClaims` | src/app/components/AdminPage.tsx:26 | exactly the claims whose status is pending, each as often as in the store and in store order, so the count the page shows is the number of pending claims |
| `AdminPage.StatusPartition` | src/app/components/AdminPage.tsx:23-25 | the pending, approved and claimed lists together are as long as the item list |
| `AdminPage.FilteredStatusData` | src/app/components/AdminPage.tsx:67-81 | the order-preserving subsequence of the status slices whose value is positive |
| `AdminPage.FilteredStatusEmpty` | src/app/components/AdminPage.tsx:67-81 | the pie chart has no slice exactly when there are no items |
| `AdminPage.Appearance` | src/app/components/AdminPage.tsx:60-65 | the chart's category names: each category once, and no other name |
| `AdminPage.CategoryTally` | src/app/components/AdminPage.tsx:60-65 | the keys are the distinct categories in first-appearance order; each count equals that category's number of items and is at least one; the counts sum to the number of items |
| `AdminPage.NewerFirstIsOrder` | src/app/components/AdminPage.tsx:74 | the newest-first comparison is total and transitive |
| `AdminPage.RecentActivity` | src/app/components/AdminPage.tsx:73-75 | min(5, count) items drawn from the list, newest first, and none left out is newer than one shown |
| `AdminPage.SortedPrefixIsNewest` | src/app/components/AdminPage.tsx:74-75 | a prefix of a newest-first list is newest-first and no older than the rest |
| `AdminPage.RoundedPercent` | src/app/components/AdminPage.tsx:561 | zero for an empty whole; otherwise the nearest integer to 100·part/whole, halves rounded up |
| `AdminPage.RoundedPercentBound` | src/app/components/AdminPage.tsx:561 | a part no larger than the whole rounds to at most 100 |
| `AdminPage.SuccessRate` | src/app/components/AdminPage.tsx:561 | zero with no items; otherwise the whole number nearest to 100 × claimed / total, a half rounding up; never above 100 |
| `AdminPage.ClaimItemTitle` | src/app/components/AdminPage.tsx:816-820 | a claim whose item id matches no item shows "Unknown Item"; otherwise the first matching item's title, or "Unknown Item" when that title is empty |
| `AdminPage.HandleApproveItem` | src/app/components/AdminPage.tsx:28-31 | the item's status becomes approved; claims untouched |
| `AdminPage.HandleRejectItem` | src/app/components/AdminPage.tsx:33-36 | the item is deleted and absent afterwards; claims untouched |
| `AdminPage.HandleApproveClaim` | src/app/components/AdminPage.tsx:38-42 | the claim is approved, and the item is marked claimed after the store's own side effect |
| `AdminPage.HandleRejectClaim` | src/app/components/AdminPage.tsx:44-47 | only the claim's status changes, to rejected; items untouched |
| `AdminPage.ApproveClaimSecondUpdateRedundant` | src/app/components/AdminPage.tsx:38-42 | when the page passes the claim's own item id, its second update changes nothing the store has not already done |
| `AdminPage.UniqueClaimIsFound` | src/app/components/AdminPage.tsx:38-42 | with unique claim ids, the store's lookup finds the very claim the page approves |
| `ItemsListingPage.ClearAll` | src/app/components/ItemsListingPage.tsx:319-323 | "Clear All Filters" resets to an empty term, every category and approved items, and keeps the sort |
| `ItemsListingPage.FilterItems` | src/app/components/ItemsListingPage.tsx:24-32 | exactly the items matching term, category and status, each as often as in the list and in list order |
| `ItemsListingPage.CategoryNotSearched` | src/app/components/ItemsListingPage.tsx:25-27 | changing an item's category never changes whether the free-text term matches it |
| `ItemsListingPage.EmptyTermMatches` | src/app/components/ItemsListingPage.tsx:25-27 | the empty term matches every item |
| `ItemsListingPage.NoFilterKeepsAll` | src/app/components/ItemsListingPage.tsx:24-32 | with an empty term and both filters "all", filtering keeps the whole list |
| `ItemsListingPage.LexLeqTotal` | src/app/components/ItemsListingPage.tsx:42 | the title order relates every pair one way or the other |
| `ItemsListingPage.LexLeqTransitive` | src/app/components/ItemsListingPage.tsx:42 | the title order is transitive |
| `ItemsListingPage.SortLeqIsOrder` | src/app/components/ItemsListingPage.tsx:35-46 | every sort choice compares items by a total, transitive order |
| `ItemsListingPage.VisibleItems` | src/app/components/ItemsListingPage.tsx:24-46 | a permutation of the filtered items, ordered by the chosen comparison |
| `ItemsListingPage.RecentIsNewestFirst` | src/app/components/ItemsListingPage.tsx:37-38 | "recent" lists items by non-increasing timestamp |
| `ItemsListingPage.OldestIsOldestFirst` | src/app/components/ItemsListingPage.tsx:39-40 | "oldest" lists items by non-decreasing timestamp |
| `ItemsListingPage.UnknownSortKeepsOrder` | src/app/components/ItemsListingPage.tsx:43-44 | any other sort value compares everything equal, and the stable sort keeps the filtered order |
| `ItemsListingPage.NoFilterShowsAll` | src/app/components/ItemsListingPage.tsx:24-46 | with no search and both filters "all", the page shows a permutation of all items |
| `SubmitItemPage.WithValue` | src/app/components/SubmitItemPage.tsx:142 | editing a field sets that field and keeps every other one |
| `SubmitItemPage.TitleError` | src/app/components/SubmitItemPage.tsx:80-84 | no error iff the trimmed title is non-empty and the length lies in 3..100 (100 is accepted); blank reports "required" first |
| `SubmitItemPage.DescriptionError` | src/app/components/SubmitItemPage.tsx:88-92 | no error iff non-blank and the length lies in 10..500; blank reports "required" first |
| `SubmitItemPage.NameError` | src/app/components/SubmitItemPage.tsx:103-106 | no error iff the trimmed name is non-empty and the untrimmed length is at least 2 |
| `SubmitItemPage.DateError` | src/app/components/SubmitItemPage.tsx:96-102 | no error iff the date is given and not after today; there is no lower bound |
| `SubmitItemPage.EmailValidIffShape` | src/app/components/SubmitItemPage.tsx:109-110 | the email pattern accepts exactly the strings without whitespace that have one '@' with text before it and a '.' after it that is neither first nor last of the domain part |
| `SubmitItemPage.EmailError` | src/app/components/SubmitItemPage.tsx:107-111 | no error iff the email is non-blank and matches the pattern |
| `SubmitItemPage.ValidFormBounds` | src/app/components/SubmitItemPage.tsx:78-133 | a form that passes has title 3..100, description 10..500, a category, a location, a name of length ≥ 2, a date not after today and a well-shaped email |
| `SubmitItemPage.CollectErrors` | src/app/components/SubmitItemPage.tsx:121-129 | the loop records an error exactly for the listed fields other than imageUrl that fail, with their messages, and clears the flag iff it records any |
| `SubmitItemPage.ValidateForm` | src/app/components/SubmitItemPage.tsx:117-133 | the error map has an entry exactly for each failing field other than imageUrl; valid iff the map is empty iff every field passes |
| `SubmitItemPage.ImageError` | src/app/components/SubmitItemPage.tsx:153-162 | an image is accepted iff its size is at most 5·1024·1024 bytes and its type starts with "image/"; the size check comes first |
| `SubmitItemPage.Resolve` | src/app/components/SubmitItemPage.tsx:198-202 | the "custom" choice is replaced by the custom text; any other choice stays |
| `SubmitItemPage.SubmitItemForm.constructor` | src/app/components/SubmitItemPage.tsx:30-47 | the form starts empty, with no errors, nothing touched and empty custom texts |
| `SubmitItemPage.SubmitItemForm.HandleBlur` | src/app/components/SubmitItemPage.tsx:135-139 | the field becomes touched and its error entry becomes its current validation result; the form is unchanged |
| `SubmitItemPage.SubmitItemForm.HandleChange` | src/app/components/SubmitItemPage.tsx:141-149 | the field takes the value; its error is re-validated only if it was touched; nothing else changes |
| `SubmitItemPage.SubmitItemForm.HandleSubmit` | src/app/components/SubmitItemPage.tsx:180-219 | every field becomes touched; the errors, keys and messages, are the form-wide result; an invalid form, or a blank custom category or location, adds nothing; otherwise exactly one pending item with the resolved values is prepended |
| `ClaimsPage.SubmitRefusal` | src/app/components/ClaimsPage.tsx:36-45 | accepted iff name and description are non-blank, the date is non-empty and the email contains '@'; a filled-in email without '@' gets the invalid-email message |
| `ClaimsPage.ClaimsPageState.constructor` | src/app/components/ClaimsPage.tsx:15-28 | the page starts with empty fields, no results shown and no claim code |
| `ClaimsPage.ClaimsPageState.HandleSubmitClaim` | src/app/components/ClaimsPage.tsx:36-62 | a refusal changes nothing; otherwise exactly one claim with the form's fields is submitted, its id is shown and the four fields reset to empty |
| `ClaimsPage.ClaimsPageState.ResetClaimForm` | src/app/components/ClaimsPage.tsx:57-61 | the four claim fields become empty and nothing else changes |
| `ClaimsPage.GetStatusText` | src/app/components/ClaimsPage.tsx:135-146 | a status other than verified, pending or rejected is shown unchanged |
| `ClaimsPage.StatusTextDistinguishes` | src/app/components/ClaimsPage.tsx:135-146 | the three portal statuses get three different labels, none equal to its raw name |
| `ClaimsPage.LookupByEmail` | src/app/components/ClaimsPage.tsx:98-107 | an email query lists exactly the claims with that email, ignoring case; it finds nothing iff no claim has it |
| `ClaimsPage.LookupById` | src/app/components/ClaimsPage.tsx:108-118 | any other query lists the one claim `getClaim` returns; it finds nothing iff no claim matches by id or email |
| `ClaimsPage.CheckStatus` | src/app/components/ClaimsPage.tsx:91-119 | a blank query is refused; a query with '@' takes the email path, any other the id path; whatever is listed comes from the store |
| `ClaimsPage.IssuedIdIsFound` | src/app/components/ClaimsPage.tsx:108-118 | checking an id the portal issued lists exactly one claim, the one carrying that id |
| `ClaimsPage.IdIsIdQuery` | src/app/components/ClaimsPage.tsx:92-98 | an issued id is neither blank nor contains '@', so it is checked as an id |
| `ClaimsPage.ClaimsPageState.HandleCheckStatus` | src/app/components/ClaimsPage.tsx:91-119 | a refusal changes nothing; a miss hides the results; a hit shows the listed claims; the form fields are untouched |
| `ItemDetailPage.ItemById` | src/app/components/ItemDetailPage.tsx:26 | the first item whose id equals the route id, and nothing iff there is none |
| `ItemDetailPage.ItemByIdUnique` | src/app/components/ItemDetailPage.tsx:26 | with unique ids, the page shows the one item carrying the route's id |
| `ItemDetailPage.View` | src/app/components/ItemDetailPage.tsx:26-62 | the not-found view iff no item has the id; otherwise that item with the panel its status selects |
| `ItemDetailPage.PanelFor` | src/app/components/ItemDetailPage.tsx:324-415 | the claim dialog iff approved, the claimed notice iff claimed, the pending notice iff pending |
| `ItemDetailPage.ApprovedClaimClosesDialog` | src/app/components/ItemDetailPage.tsx:324-407 | once a claim is approved, its item's page shows the claimed notice instead of the claim dialog |
| `ItemDetailPage.ItemDetailState.constructor` | src/app/components/ItemDetailPage.tsx:28-33 | the claim form starts empty and its dialog closed |
| `ItemDetailPage.ItemDetailState.HandleClaimSubmit` | src/app/components/ItemDetailPage.tsx:64-90 | submitted iff name, email and description are non-empty (phone optional, spaces pass); then one pending claim for this item with the form's fields is added, the dialog closes and the form is emptied; otherwise nothing changes |
| `LoginPage.RedirectTarget` | src/app/components/LoginPage.tsx:27 | the path the visitor came from, or "/admin" when none or an empty one is given; never empty |
| `LoginPage.LoginPageState.constructor` | src/app/components/LoginPage.tsx:19-25 | both fields and both error texts start empty |
| `LoginPage.LoginPageState.ValidateForm` | src/app/components/LoginPage.tsx:29-45 | the username is flagged iff blank, the password iff empty (spaces pass); valid iff neither is flagged |
| `LoginPage.LoginPageState.HandleSubmit` | src/app/components/LoginPage.tsx:47-78 | an invalid form is refused with the session untouched and exactly the form check's errors shown; otherwise the session takes the login transition, success redirects to the target, failure puts the same text under both fields |
| `LoginPage.LoginPageState.EditUsername` | src/app/components/LoginPage.tsx:158-161 | typing a username clears only the username error |
| `LoginPage.LoginPageState.EditPassword` | src/app/components/LoginPage.tsx:200-203 | typing a password clears only the password error |
| `SmartNotifications.SeedUniqueIds` | src/app/components/SmartNotifications.tsx:22-55 | the four seed channels have distinct ids |
| `SmartNotifications.SmartNotificationsState.constructor` | src/app/components/SmartNotifications.tsx:22-55 | the panel starts with the four seed channels |
| `SmartNotifications.Toggled` | src/app/components/SmartNotifications.tsx:57-62 | length and order kept; entries with the id have `enabled` flipped and nothing else changed; all other entries untouched |
| `SmartNotifications.ToggleTwice` | src/app/components/SmartNotifications.tsx:57-62 | toggling the same id twice restores the list |
| `SmartNotifications.ToggleUnknown` | src/app/components/SmartNotifications.tsx:57-62 | an unknown id leaves the list unchanged |
| `SmartNotifications.ConfirmationFor` | src/app/components/SmartNotifications.tsx:64-73 | the toast names the channel and the opposite of its old state |
| `SmartNotifications.ToggleMessage` | src/app/components/SmartNotifications.tsx:64-73 | no message iff no channel has the id; otherwise the toast for the first channel with it, worded from the list before the toggle |
| `SmartNotifications.MessageReportsNewState` | src/app/components/SmartNotifications.tsx:57-73 | the message names the state the channel has after the toggle, so it says "enabled" exactly when the channel was off |
| `SmartNotifications.SmartNotificationsState.TogglePreference` | src/app/components/SmartNotifications.tsx:57-74 | the list becomes the toggle of the old list and the message is computed from the old list |
| `Text.Trim` | src/app/components/SubmitItemPage.tsx:81 | `trim()`: empty iff the text is all whitespace; otherwise starts and ends with non-whitespace, and is the text with only whitespace cut from its front and back |
| `Text.BlankIffTrimEmpty` | src/app/components/SubmitItemPage.tsx:81 | `!s.trim()` holds exactly when the text is all whitespace |
| `Text.Lower` | src/app/contexts/ClaimsContext.tsx:74 | `toLowerCase()` keeps the length and lower-cases each character |
| `Text.Contains` | src/app/components/ItemsListingPage.tsx:25-27 | `includes` holds iff the text occurs at some position |
| `Text.PadStart` | src/app/contexts/ClaimsContext.tsx:59 | `padStart`: at least the width long, the text at the end and only the pad character before it |
| `Text.PaddedDecimalValue` | src/app/contexts/ClaimsContext.tsx:59 | the zero-padded decimal rendering is all digits and reads back as the number |
| `Text.DecimalValue` | src/app/contexts/ClaimsContext.tsx:59 | `String(n)` reads back as the number |
| `Seqs.Filter` | src/app/components/AdminPage.tsx:23 | `filter`: an order-preserving subsequence holding exactly the elements that satisfy the predicate, each as often as before |
| `Seqs.FilterSplit` | src/app/components/AdminPage.tsx:23-25 | a predicate and its complement split a list's length between them |
| `Seqs.FindIndex` | src/app/contexts/ItemsContext.tsx:152 | `findIndex`: the first position whose element satisfies the predicate, and none iff no element does |
| `Seqs.Find` | src/app/contexts/ItemsContext.tsx:152 | `find`: the element at the first position satisfying the predicate, and none iff no element does |
| `Seqs.SortBy` | src/app/components/ItemsListingPage.tsx:35-46 | the stable `sort` under a total, transitive order: a permutation, sorted by the order |
| `Seqs.SortByEqualKeeps` | src/app/components/ItemsListingPage.tsx:43-44 | a comparison that calls everything equal leaves the order unchanged (stability) |

## Left out

- Rendering, styling, animations, charts, toasts, confetti, router navigation and dialogs: presentation and third-party libraries. A toast is modelled only where its text is the outcome (claim-portal refusals, the preference message).
- Browser storage and JSON: the stores start from the value storage would yield (`Option` of a decoded list, flag text, user or scheme name). Writes back to storage are not modelled.
- `setTimeout` delays on login and submission: the delayed effect is taken as immediate, and the `isLoading`/`isSubmitting` flags, which end where they started, are not modelled.
- The clock: `Date.now()` ids, `new Date()` timestamps and "today" are parameters. `createdAt` is an integer timestamp, not the ISO text the code stores and parses back.
- `FileReader` image reading, the data-URL preview, the clipboard copy and QR codes are foreign browser calls. Only the size and type checks made before reading are modelled.
- Icons, the notification `time` strings and the claim-portal date-input limits (`today`, `oneYearAgo`) are display-only.
- Home, Security, Reunited gallery, Heatmap, NavBar, theme toggle, notification bell and notifications page are pages without logic of their own. The home page's success rate is the admin formula (`AdminPage.SuccessRate`).
- `ItemsContext`'s not-found failure of `useItems` outside a provider is a framework guard.
- ItemDetailPage.ItemDetailState.HandleClaimSubmit: modelled as if every submit reached the handler. The claimant email input is `type="email"` in a form without `noValidate`, so the browser's own constraint check stops a malformed non-empty address such as "abc" before the handler runs; that browser check is not modelled.
- SubmitItemPage.SubmitItemForm.HandleSubmit: modelled as if every submit reached the handler. The contact email input is `type="email"` in a form without `noValidate`, so the browser's own constraint check stops a malformed non-empty address before the handler marks the fields touched; that browser check is not modelled.
- Text.Lower: models `toLowerCase` on ASCII letters only; other Unicode case mappings are not modelled.
- Text.Trim: strings are sequences of code points, so `.length` is the code-point count rather than the UTF-16 unit count wherever characters outside the basic plane occur.
- ThemeContext.GetColor: keys inherited from the object prototype (such as "toString") are not modelled. The stored scheme is taken as one of the five names; an unknown stored name is kept as the scheme, and every `getColor` call then throws a TypeError when it reads a colour of the missing scheme; that case is not modelled.
- AdminPage.RoundedPercent: exact rational half-up rounding replaces the floating-point `Math.round((c / n) * 100)`. They differ where the float product falls just below a half; for example 29 of 200 gives 14.499… in floating point (rounded to 14), where the exact value 14.5 rounds to 15. Only the bounds are claimed for the float version.
- AdminPage.CategoryTally: categories named after object-prototype keys are not modelled. A custom category text such as "constructor" or "toString" would make the source's count a concatenated string, and "__proto__" would be dropped, so the exact counts and their sum hold only for other names. Also, the keys are in first-appearance order. `Object.entries` lists integer-like keys first, in numeric order, and that reordering is not modelled.
- ItemsListingPage.LexLeqTotal: the title sort uses code-point lexicographic order in place of the locale-dependent `localeCompare`.
- SubmitItemPage.DateError: dates are day numbers and "today" is the caller's day number. Parsing the date text and time zones (the date parses as UTC midnight but is compared with local end of day) are not modelled.
- ClaimsPage.CheckStatus: the toast texts of a hit ("Found n claims") are not modelled.
