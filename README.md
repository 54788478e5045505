# Task manager and affiliate booking demo, modelled in Dafny

The repository is a React demo with two parts. The first is a to-do list:
tasks can be added, edited, completed, deleted, searched, filtered and sorted.
The second is an affiliate and booking application. Customers register and
log in by e-mail, the signed-in customer is kept in the browser's local
storage, customers hold referral QR codes and referrals, and an admin sees
the customer list, the revenue and the bookings. A public booking form
validates its fields.

This project models the logic layer of both parts:

| module | file | models |
|---|---|---|
| `Wrappers`, `Seqs`, `Text` | wrappers.dfy, seqs.dfy, text.dfy | `Option`; the JavaScript array methods `filter`, `map`, `find`, `findIndex` and `some`; the string methods `toLowerCase`, `includes`, `trim`, and `localeCompare` as an order |
| `TaskTypes`, `Models` | task_types.dfy, models.dfy | the records of `src/types/task.ts` and `src/types/models.ts` |
| `Storage` | storage.dfy | `src/utils/storage.ts`: the nine keys, loading and saving, and the store as a class holding a map |
| `TaskList` | task_list.dfy | the search, filter and sort pipeline |
| `TaskForm` | task_form.dfy | building a task on submit, and the form state as a class |
| `TaskManager` | task_manager.dfy | the task-list state as a class and its handlers, plus the form wired to it |
| `AuthContext` | auth_context.dfy | login, register, logout and profile update over the stored customers |
| `AdminDashboard`, `CustomerDashboard` | admin_dashboard.dfy, customer_dashboard.dfy | customer search, revenue, name lookups, the admin gate; QR code lookup and generation, the referral list |
| `ProtectedRoute`, `Register`, `Booking` | protected_route.dfy, register.dfy, booking.dfy | the route guard; the sign-up form and its request; the booking form |

Each code chain of pure `filter`, `map` and `find` calls is a Dafny
function. Its contract states what it keeps or finds, and lemmas relate it
to a partner: an inverse, a reference definition, or a later lookup.

Components and providers that change state are classes. Their methods
state the whole new state, in terms of pure functions of the old state
(for example `store.items == Registered(old(store.items), …)`). Lemmas
about those functions then give the properties the application relies on:
round trips through storage, other keys unchanged, registering then logging
in, and ids staying unique.

The following inputs are method parameters, not hidden calls:

- ids (`crypto.randomUUID`);
- timestamps (`new Date()`, as integers);
- `parseInt`;
- `encodeURIComponent`.

## Model

| member | source | states |
|---|---|---|
| Seqs.Filter | src/components/TaskList.tsx:33-47 | `Array.filter`: keeps exactly the elements satisfying the predicate, each as often as in the input, and never grows |
| Seqs.FilterConcat | src/components/TaskManager.tsx:55 | `filter` works element by element, so it keeps the input order |
| Seqs.Find | src/components/TaskManager.tsx:52 | `Array.find`: absent exactly when no element matches; otherwise the element at the first matching index |
| Seqs.FindAppend | src/context/AuthContext.tsx:108 | appending an element never changes an earlier first match; the new element is found only when nothing before it matches |
| Text.Lower | src/context/AuthContext.tsx:43 | `toLowerCase` keeps the length and maps each character on its own |
| Text.LowerIdempotent | src/context/AuthContext.tsx:43 | lowering twice is lowering once |
| Text.ContainsEmpty | src/components/TaskList.tsx:36-38 | every string `includes` the empty string |
| Text.Trim | src/components/TaskForm.tsx:26 | `trim`: the result is the input with a white-space prefix and a white-space suffix removed, has no white space at either end, and is empty exactly when the input is all white space |
| Text.TrimIdempotent | src/components/TaskForm.tsx:37-38 | trimming a trimmed string changes nothing |
| Text.LexLeTotal | src/components/TaskList.tsx:56 | the string order standing for `localeCompare` is total |
| Text.LexLeTransitive | src/components/TaskList.tsx:56 | the string order is transitive |
| Text.LexLeAntisymmetric | src/components/TaskList.tsx:56 | strings that are ordered both ways are equal |
| TaskList.FilterTasks | src/components/TaskList.tsx:34-47 | a task is kept iff the lowered query occurs in its lowered title or description and it passes the completion filter, with multiplicities kept |
| TaskList.BeforeTotal | src/components/TaskList.tsx:48-58 | the comparator orders every pair of tasks under each sort option |
| TaskList.BeforeTransitive | src/components/TaskList.tsx:48-58 | the comparator is transitive under each sort option |
| TaskList.Insert | src/components/TaskList.tsx:48 | insertion adds exactly the one task |
| TaskList.SortTasks | src/components/TaskList.tsx:48 | sorting is a permutation |
| TaskList.InsertSorted | src/components/TaskList.tsx:48-58 | inserting into a sorted list keeps it sorted |
| TaskList.SortTasksSorted | src/components/TaskList.tsx:48-58 | the sorted list is ordered by the comparator |
| TaskList.InsertTiedWith | src/components/TaskList.tsx:48 | insertion keeps tied tasks in their original relative order |
| TaskList.SortTasksStable | src/components/TaskList.tsx:48 | sorting is stable: tasks that compare equal keep their relative order |
| TaskList.VisibleTasks | src/components/TaskList.tsx:33-58 | the shown list (filter, then sort) is a permutation of the filtered list: each task appears as often as in the input if it passes the search and the filter, and otherwise not at all |
| TaskList.VisibleMembers | src/components/TaskList.tsx:33-58 | a task is shown iff it is in the list, matches the search, and passes the completion filter |
| TaskList.VisibleHonoursFilter | src/components/TaskList.tsx:41-44 | `active` shows only open tasks and `completed` only completed ones |
| TaskList.EmptySearchKeepsAll | src/components/TaskList.tsx:36-44 | an empty query with filter `all` keeps every task |
| TaskList.VisibleOrdered | src/components/TaskList.tsx:48-58 | the shown list is sorted, and tied tasks keep the order they had after filtering |
| TaskList.VisibleOrderPerOption | src/components/TaskList.tsx:50-56 | consecutive shown tasks are ordered as follows: by priority rank high, medium, low; by non-increasing `createdAt`; or by the title order |
| TaskForm.BuildTask | src/components/TaskForm.tsx:26-42 | a title that is blank after trimming is refused. Otherwise the task has the trimmed title and description and the chosen priority. An edited task keeps its id, `completed` and `createdAt`; a new task gets the fresh id, starts open and is created now |
| TaskForm.BuiltTaskNormalized | src/components/TaskForm.tsx:37-38 | every emitted task is trimmed and has a non-empty title |
| TaskForm.ResubmitUnchanged | src/components/TaskForm.tsx:35-42 | saving an edit of a normalised task without changes reproduces the task |
| TaskForm.InitialFields | src/components/TaskForm.tsx:19-21 | the form starts from the edited task's fields, or empty with priority `medium` |
| TaskForm.StaleEditForm | src/components/TaskForm.tsx:19-21 | as written, editing a task in a fresh form leaves its fields empty, so saving is refused, and after an edit the form keeps the old text |
| TaskForm.SyncedEditForm | src/components/TaskForm.tsx:19-21 | with the fields following the prop, saving an unchanged edit reproduces the task, and leaving edit mode empties the form |
| TaskForm.Form.HandleSubmit | src/components/TaskForm.tsx:23-57 | a blank title changes nothing and emits nothing. Otherwise the built task is emitted; a new-task form resets to empty with `medium`, and an edit form keeps its fields and calls `onCancelEdit` when there is one |
| TaskForm.Form.ReceiveEditingTask | src/components/TaskForm.tsx:17-21 | as written: a new `editingTask` prop is recorded and the fields keep their values, since the `useState` initialisers run only once |
| TaskForm.Form.SyncEditingTask | src/components/TaskForm.tsx:17-21 | the correction of the finding below, not what the source does: a changed prop reloads the fields as the initialisers load them at creation, and an unchanged prop keeps them |
| TaskManager.ReplaceById | src/components/TaskManager.tsx:31 | every task with the id becomes the given task, every other task is unchanged, and the length is kept |
| TaskManager.ToggleById | src/components/TaskManager.tsx:39-45 | toggling flips `completed` on the tasks with the id and changes no other field, leaves all other tasks unchanged, and keeps the length |
| TaskManager.ToggleTwice | src/components/TaskManager.tsx:40-44 | toggling the same id twice restores the list |
| TaskManager.RemoveById | src/components/TaskManager.tsx:55 | deletion removes exactly the tasks with the id and keeps every other task as often as it was there |
| TaskManager.RemoveKeepsOrder | src/components/TaskManager.tsx:55 | deletion works task by task, so the kept tasks keep their order |
| TaskManager.RemoveAbsent | src/components/TaskManager.tsx:52-55 | deleting an id that no task has leaves the list unchanged |
| TaskManager.FindById | src/components/TaskManager.tsx:52 | the task found for an id is the first task with that id; none is found exactly when no task has it |
| TaskManager.Manager.constructor | src/components/TaskManager.tsx:11-15 | the manager starts with no tasks, nothing edited, an empty search, filter `all` and sort `date` |
| TaskManager.Manager.HandleAddTask | src/components/TaskManager.tsx:28-37 | when editing, the task replaces the one with its id and editing stops; otherwise it is put in front of the old tasks |
| TaskManager.Manager.HandleToggleComplete | src/components/TaskManager.tsx:39-45 | the list becomes the toggled list, and nothing else changes |
| TaskManager.Manager.HandleEditTask | src/components/TaskManager.tsx:47-49 | only `editingTask` changes |
| TaskManager.Manager.CancelEdit | src/components/TaskManager.tsx:67 | the `onCancelEdit` callback clears the edited task, and nothing else changes |
| TaskManager.Manager.HandleDeleteTask | src/components/TaskManager.tsx:51-60 | the deleted task reported is the first with the id; the list becomes the deletion; an unknown id changes nothing |
| TaskManager.SubmitForm | src/components/TaskManager.tsx:64-68 | submitting the wired form refuses a blank title, with the tasks, the edited task and the fields unchanged. Otherwise it puts a new task in front and empties the fields (priority `medium`), or replaces the edited task by id (keeping that id), stops editing and, once the form follows the prop, empties the form. Search, filter and sort stay as they were |
| TaskManager.EditInForm | src/components/TaskManager.tsx:47-49 | choosing a task to edit records it and, once the form follows the prop, loads its fields into the form; the tasks, search, filter and sort stay as they were |
| Storage.KeyNamesDistinct | src/utils/storage.ts:13-23 | the nine storage key names are pairwise distinct |
| Storage.LoadFromStorage | src/utils/storage.ts:26-34 | `loadFromStorage`: on a store where every key holds its own shape, the loaded document has the key's shape (the stored list, or the empty list for a missing or unparseable value) |
| Storage.LoadSingleItem | src/utils/storage.ts:46-54 | `loadSingleItem`: on such a store, the business-info and current-user keys load a record of their shape or null |
| Storage.LoadCustomers | src/utils/storage.ts:65 | on such a store, exactly the stored customer list |
| Storage.LoadBusinessInfo | src/utils/storage.ts:69 | on such a store, exactly the stored business record, or none for null |
| Storage.LoadBookings | src/utils/storage.ts:73 | on such a store, exactly the stored booking list |
| Storage.LoadQRCodes | src/utils/storage.ts:77 | on such a store, exactly the stored QR-code list |
| Storage.LoadReferrals | src/utils/storage.ts:81 | on such a store, exactly the stored referral list |
| Storage.LoadTransactions | src/utils/storage.ts:85 | on such a store, exactly the stored transaction list |
| Storage.LoadNotifications | src/utils/storage.ts:89 | on such a store, exactly the stored notification list |
| Storage.LoadAdminActions | src/utils/storage.ts:93 | on such a store, exactly the stored admin-action list |
| Storage.LoadCurrentUser | src/utils/storage.ts:97 | on such a store, exactly the stored user, or none for null |
| Storage.UnwrittenCollectionIsEmpty | src/utils/storage.ts:26-29 | a collection key that was never written loads as the empty list |
| Storage.UnwrittenItemIsNull | src/utils/storage.ts:46-49 | a single-item key that was never written loads as null |
| Storage.UnparseableLoadsEmpty | src/utils/storage.ts:30-33 | text that does not parse loads as the empty list or null, never as an error |
| Storage.CollectionRoundTrip | src/utils/storage.ts:26-43 | loading a collection returns what was last saved under its key |
| Storage.ItemRoundTrip | src/utils/storage.ts:46-62 | loading a single item returns what was last saved under its key |
| Storage.TypedRoundTrips | src/utils/storage.ts:65-98 | the customer, QR code and current-user wrappers return what their savers wrote |
| Storage.PutFrame | src/utils/storage.ts:37-43 | saving under one key leaves what every other key loads unchanged |
| Storage.RemoveFrame | src/utils/storage.ts:99 | removing one key leaves every other key unchanged |
| Storage.ClearedUserIsNull | src/utils/storage.ts:97-99 | after `clearCurrentUser`, `loadCurrentUser` returns null |
| Storage.PutWellTyped | src/utils/storage.ts:65-98 | saving a document of the key's own shape keeps every key holding its own shape |
| Storage.LocalStore.SaveToStorage | src/utils/storage.ts:37-43 | the store is the old store with the list written under the key, and every key still holds its own shape |
| Storage.LocalStore.SaveSingleItem | src/utils/storage.ts:56-62 | the store is the old store with the record or null written under the key, and every key still holds its own shape |
| Storage.LocalStore.SaveCustomers | src/utils/storage.ts:66 | the customer list is written under the customers key, keeping every key's shape |
| Storage.LocalStore.SaveBusinessInfo | src/utils/storage.ts:70 | the business record is written under its key, keeping every key's shape |
| Storage.LocalStore.SaveBookings | src/utils/storage.ts:74 | the booking list is written under its key, keeping every key's shape |
| Storage.LocalStore.SaveQRCodes | src/utils/storage.ts:78 | the QR-code list is written under its key, keeping every key's shape |
| Storage.LocalStore.SaveReferrals | src/utils/storage.ts:82 | the referral list is written under its key, keeping every key's shape |
| Storage.LocalStore.SaveTransactions | src/utils/storage.ts:86 | the transaction list is written under its key, keeping every key's shape |
| Storage.LocalStore.SaveNotifications | src/utils/storage.ts:90 | the notification list is written under its key, keeping every key's shape |
| Storage.LocalStore.SaveAdminActions | src/utils/storage.ts:94 | the admin-action list is written under its key, keeping every key's shape |
| Storage.LocalStore.SaveCurrentUser | src/utils/storage.ts:98 | the store is the old store with the user record, or null, under the current-user key, keeping every key's shape |
| Storage.LocalStore.ClearCurrentUser | src/utils/storage.ts:99 | the store is the old store without the current-user key, keeping every other key's shape |
| AuthContext.FindByEmail | src/context/AuthContext.tsx:43 | the first customer whose e-mail matches ignoring case; none exactly when no customer matches |
| AuthContext.EmailTaken | src/context/AuthContext.tsx:81 | a registration is refused iff an e-mail is given and some customer's e-mail matches it ignoring case; a missing e-mail is never taken |
| AuthContext.NewCustomer | src/context/AuthContext.tsx:91-105 | a new customer has the given id, is unverified, has role customer, has no free hours and no QR code, and is created and updated now. E-mail, first name, last name, description and occupation are the given values or empty; the age is as given; the referrer is `ReferrerOrNull` of the given one |
| AuthContext.Merge | src/context/AuthContext.tsx:146-150 | the merged record carries the update time; the per-field override is stated by `MergeOverrides` |
| AuthContext.ReferrerOrNull | src/context/AuthContext.tsx:104 | a non-empty referrer id is passed through unchanged; a missing, null or empty one becomes null |
| AuthContext.MergeEmpty | src/context/AuthContext.tsx:146-150 | an update with no fields only refreshes `updatedAt` |
| AuthContext.MergeOverrides | src/context/AuthContext.tsx:146-150 | for each of the thirteen patchable fields, a value present in the update wins and a missing one keeps the old value; `updatedAt` is now either way |
| AuthContext.MergeIdempotent | src/context/AuthContext.tsx:146-150 | applying the same update twice at the same time equals applying it once |
| AuthContext.MergeOverlay | src/context/AuthContext.tsx:146-150 | two updates in a row equal one update with the spread of both |
| AuthContext.ReplaceCustomer | src/context/AuthContext.tsx:153-155 | only the entries with the signed-in id are replaced, and the length is kept |
| AuthContext.RegisteredLoads | src/context/AuthContext.tsx:108-113 | after registering, the stored list is the old list with the new customer at the end, and the new customer is the stored current user |
| AuthContext.RegisteredFrame | src/context/AuthContext.tsx:108-113 | registering leaves every key other than the customers and the current user unchanged |
| AuthContext.RegisterThenLogin | src/context/AuthContext.tsx:43 | after registering with an unused e-mail, login with that e-mail in any case finds the new customer |
| AuthContext.RegisterWithoutEmailTwice | src/context/AuthContext.tsx:81-93 | a registration without an e-mail is never refused and gets the empty e-mail; after a second such registration, login with the empty e-mail still finds the first |
| AuthContext.RegisterKeepsIdsUnique | src/context/AuthContext.tsx:91-109 | with a fresh id, customer ids stay unique |
| AuthContext.UpdateKeepsIds | src/context/AuthContext.tsx:143-161 | an update without an id keeps every customer's id and the list length, and keeps ids unique. The entry with the user's id and the stored current user both become the merged record |
| AuthContext.AuthProvider.constructor | src/context/AuthContext.tsx:27-28 | the provider starts with no current user and loading, over the given store |
| AuthContext.AuthProvider.Mount | src/context/AuthContext.tsx:32-36 | mounting restores the stored current user and ends loading |
| AuthContext.AuthProvider.Login | src/context/AuthContext.tsx:40-74 | login succeeds iff a stored customer's e-mail matches ignoring case, and the password is ignored. On success the first match becomes the current user in state and storage; on failure nothing changes |
| AuthContext.AuthProvider.Register | src/context/AuthContext.tsx:76-130 | a taken e-mail is refused with nothing changed. Otherwise the new customer is appended, saved and signed in |
| AuthContext.AuthProvider.Logout | src/context/AuthContext.tsx:132-139 | no current user, and the current-user key is removed |
| AuthContext.AuthProvider.UpdateProfile | src/context/AuthContext.tsx:141-178 | fails with nothing changed when no one is signed in. Otherwise the merged record replaces the user's entry and becomes the current user in state and storage |
| AdminDashboard.FilteredCustomers | src/pages/AdminDashboard.tsx:28-32 | a customer is kept iff the lowered term occurs in the lowered first name, last name or e-mail |
| AdminDashboard.FilteredCustomersInOrder | src/pages/AdminDashboard.tsx:28-32 | the search keeps the list order |
| AdminDashboard.EmptyTermKeepsAll | src/pages/AdminDashboard.tsx:28-32 | an empty search term keeps every customer |
| AdminDashboard.TotalRevenue | src/pages/AdminDashboard.tsx:34-38 | `calculateTotalRevenue` equals the reference sum of completed amounts |
| AdminDashboard.RevenueIsCompletedAmount | src/pages/AdminDashboard.tsx:34-38 | filtering the completed transactions and folding their amounts from the left is the sum of the completed amounts; pending and failed ones contribute nothing |
| AdminDashboard.RevenueAppend | src/pages/AdminDashboard.tsx:35-37 | revenue of no transactions is 0, and appending one adds its amount exactly when it is completed |
| AdminDashboard.RevenueConcat | src/pages/AdminDashboard.tsx:35-37 | revenue is additive over concatenation |
| AdminDashboard.SumAmountsConcat | src/pages/AdminDashboard.tsx:37 | the `reduce` sum is additive over concatenation |
| AdminDashboard.RevenueExample | src/pages/AdminDashboard.tsx:34-38 | completed payments of 500 and 600 CZK and a pending one of 300 give 1100 |
| AdminDashboard.AdminPage | src/pages/AdminDashboard.tsx:19-26 | the collections are loaded and shown iff the current user is an admin; anyone else sees "Unauthorized access" |
| AdminDashboard.FindCustomer | src/pages/AdminDashboard.tsx:279-280 | the first customer with the id; none exactly when no customer has it |
| AdminDashboard.PartyName | src/pages/AdminDashboard.tsx:286 | a referral party shows the first match's full name, or "Unknown" |
| AdminDashboard.PartyNameOfListed | src/pages/AdminDashboard.tsx:279-292 | with unique ids, each listed customer's row shows that customer's name |
| AdminDashboard.BookingCustomerName | src/pages/AdminDashboard.tsx:219 | the booking and referral tables agree for a customer with a first name. An unknown customer, or one with an empty first name, reads "Unknown " in the booking table |
| CustomerDashboard.UserQrCode | src/pages/CustomerDashboard.tsx:19-21 | the shown code is the first stored code of the customer, or none when there is none |
| CustomerDashboard.UserReferrals | src/pages/CustomerDashboard.tsx:24-26 | the shown referrals are exactly the stored ones the customer made |
| CustomerDashboard.UserReferralsInOrder | src/pages/CustomerDashboard.tsx:24-26 | the referral list keeps the stored order |
| CustomerDashboard.ReferralUrl | src/pages/CustomerDashboard.tsx:40 | the link is `https://example.com/ref/` followed by the customer id |
| CustomerDashboard.ReferralUrlInjective | src/pages/CustomerDashboard.tsx:40 | different customers get different links |
| CustomerDashboard.NewQrCode | src/pages/CustomerDashboard.tsx:37-44 | a new code belongs to the customer, carries the referral link and the QR-service image of the encoded link, has never been scanned, and is created now |
| CustomerDashboard.GeneratedLookup | src/pages/CustomerDashboard.tsx:46-50 | generation appends exactly one code and keeps the rest. The customer's lookup then finds the new code when they had none and the old one otherwise; other customers' lookups are unchanged |
| CustomerDashboard.GeneratedFrame | src/pages/CustomerDashboard.tsx:46-48 | generation touches no other storage key |
| CustomerDashboard.Dashboard.constructor | src/pages/CustomerDashboard.tsx:12-14 | the dashboard starts with no QR code, no referrals, not generating and nothing pending, over the given store |
| CustomerDashboard.Dashboard.LoadForUser | src/pages/CustomerDashboard.tsx:16-28 | with a signed-in customer, the shown code and referrals are those lookups; without one nothing changes |
| CustomerDashboard.Dashboard.GenerateQRCode | src/pages/CustomerDashboard.tsx:30-36 | signed out, nothing happens. Otherwise generation starts, with the customer captured for the callback |
| CustomerDashboard.Dashboard.GenerationDone | src/pages/CustomerDashboard.tsx:36-52 | the callback appends and saves the new code, shows it, and ends generation |
| ProtectedRoute.Guard | src/components/auth/ProtectedRoute.tsx:18-37 | loading shows the loading view, and no user redirects to `/login`. The children render iff a user is signed in and no role is required or the role matches. A mismatch redirects an admin to `/admin` and a customer to `/dashboard` |
| ProtectedRoute.RedirectSettles | src/components/auth/ProtectedRoute.tsx:28-34 | a mismatched user is redirected to their own role's home, and a guard requiring that role renders the children; it settles on the assumption that `/admin` and `/dashboard` are guarded by their own roles |
| ProtectedRoute.GuardIsSafe | src/components/auth/ProtectedRoute.tsx:28-37 | nobody without the required role is shown the page |
| Register.WithField | src/components/auth/Register.tsx:31-34 | a change sets exactly the named input and leaves the others |
| Register.RegistrationRequest | src/components/auth/Register.tsx:47-56 | the text fields pass unchanged. An empty age gives an undefined age, otherwise the parsed one. A missing or empty `ref` gives an undefined referrer, otherwise its value |
| Register.RegisterPage.constructor | src/components/auth/Register.tsx:12-22 | the sign-up page starts with every input empty and not loading, with the `ref` link parameter and the provider it is given |
| Register.RegisterPage.HandleChange | src/components/auth/Register.tsx:31-34 | a change sets exactly the named input, and loading is unchanged |
| Register.SignUpRecord | src/components/auth/Register.tsx:47-57 | the customer a sign-up creates carries the typed fields, the parsed age and the referrer from the link, or null |
| Register.RegisterPage.HandleSubmit | src/components/auth/Register.tsx:36-66 | mismatched passwords stop before `register` with nothing changed. Otherwise it registers and navigates to `/dashboard` only on success, and loading is over either way |
| Booking.FindService | src/components/businessCard/Booking.tsx:31 | the first service with the id; none exactly when no service has it |
| Booking.FindListedService | src/components/businessCard/Booking.tsx:78 | with unique ids, choosing a listed service's id selects that service |
| Booking.ValidateBooking | src/components/businessCard/Booking.tsx:41-57 | a missing service or date, or an empty name, e-mail or phone, is refused. Otherwise the booking of that service and date is confirmed and the page goes to `/` |
| Booking.BookingForm.constructor | src/components/businessCard/Booking.tsx:17-24 | the booking form starts with the given `serviceId`, no business info, no service, today as the date and empty name, e-mail and phone |
| Booking.BookingForm.LoadBusiness | src/components/businessCard/Booking.tsx:26-37 | stored business info is taken when there is some. A non-empty `serviceId` preselects its service only when the business offers it |
| Booking.BookingForm.SelectService | src/components/businessCard/Booking.tsx:77-80 | choosing an id selects the first service with it, or none |
| Booking.BookingForm.HandleSubmit | src/components/businessCard/Booking.tsx:39-58 | submitting validates the current fields and persists nothing |
| Booking.BookingForm.CurrentScreen | src/components/businessCard/Booking.tsx:60-62 | the form is not shown until business info is loaded |

## Left out

- `toLowerCase` is modelled for ASCII, Latin-1 and Latin Extended-A only (this covers Czech). Other scripts and the multi-character mappings are not modelled.
- `localeCompare` is modelled as lexicographic order over code points. Locale collation rules are not modelled.
- Storage is modelled as a map from key names to parsed documents or unparseable text. JSON encoding is a faithful injection.
- Text that parses as a different shape than the key's is not modelled: the application never writes one, and the model loads it as empty or null.
- Quota and other write failures, which the savers only log, are not modelled.
- `parseInt` is passed in as a function, and its `NaN` result is not modelled.
- `encodeURIComponent`, `crypto.randomUUID` and `new Date()` are parameters.
- Timestamps are integers, not ISO strings.
- TaskManager.SubmitForm: the form wired to the manager follows its `editingTask` prop through the corrected `TaskForm.Form.SyncEditingTask`, so its ensures that the form empties after an edit is saved state the intended behaviour. As written the form keeps the edited text; `TaskForm.StaleEditForm` shows this, and the finding below records it.
- TaskManager.EditInForm: wired to the same correction, so the loaded fields are the intended behaviour, not the as-written one.
- AuthContext.NewCustomer: `createdAt` and `updatedAt` come from two separate clock reads in the source (src/context/AuthContext.tsx:99-100), which may differ by a tick; the model merges them into one `now`, so it states them equal.
- Amounts and prices are JavaScript numbers in the source (src/pages/AdminDashboard.tsx:37); the model takes them as whole CZK `int`s, so fractional amounts and floating-point rounding of the sum are not modelled.
- No route in src/App.tsx mounts `ProtectedRoute` (only `/` and `*` are routed); the guard is modelled on its own, and the `/admin` and `/dashboard` targets of its redirects are assumed to be guarded by their roles.
- The 1500 ms `setTimeout` of QR generation is split into a start method and a callback method, with no delay in between.
- Toasts, `alert`, `navigate` (returned as an outcome value instead), console logging and the clipboard copy in `copyReferralLink` are left out.
- React effect scheduling and re-rendering are not modelled; the composed methods in `TaskManager` stand for one render cycle.
- The task list's load and auto-save effects (src/components/TaskManager.tsx:18-26) are not modelled, because `loadTasks` and `saveTasks` do not exist in src/utils/storage.ts. The list is kept in memory and starts empty.
- `Partial<Customer>` is modelled as one optional entry per key. A required field explicitly set to `undefined` is not modelled.
- Admin-dashboard and profile markup, the booking calendar widget, the sample-data seeding (src/utils/initSampleData.ts), BusinessInfo.tsx and the presentational pages are outside this model.
- Free hours, reward hours and admin-action values are opaque reals, and nothing computes with them.
- The `try`/`catch` error paths of `login`, `register` and `updateProfile` are left out: the modelled storage operations cannot throw.
- AuthContext.AuthProvider.Register: the new customer's id is a parameter and is not required to be fresh. Uniqueness of ids is instead the hypothesis of `AuthContext.RegisterKeepsIdsUnique`.

## Findings

| source | as written | input that shows it | evidently intended | confidence | as-written member | corrected member |
|---|---|---|---|---|---|---|
| src/components/TaskForm.tsx:19-21 | the fields are read from `editingTask` only when the form is first created. The form is never re-created, so choosing Edit shows "Edit Task" over stale fields | a new-task form with empty fields receives a task to edit; pressing "Update Task" is refused as an empty title. After an edit is saved, the new-task form still holds the edited text | the form shows, and saves, the fields of the task being edited, and empties when editing ends. `TaskForm.Form.ReceiveEditingTask` models the code as written; `TaskForm.Form.SyncEditingTask` is the correction, which `TaskManager.SubmitForm` and `TaskManager.EditInForm` use | not executed; high | TaskForm.StaleEditForm | TaskForm.SyncedEditForm |
