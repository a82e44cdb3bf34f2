# Project-collaboration front end: session renewal, list patches and form rules

This Dafny project models the client-side core of a React front end where
students publish projects, ask to join them and approve or reject the
requests they receive. It has three parts.

- **Session renewal.** The response interceptor of the shared HTTP client
  (`SessionClient`) passes successes through. On a 401 for a request not yet
  marked `_retry`, it marks the request, posts once to `/refresh-token` and
  replays the request. The marker is a field of a `RequestConfig` class. The
  `Send` method is proved against the reference function `Expected`, and the
  lemmas bound how many renewals a request can trigger.
- **Local list patches.** After the server accepts an action, the pages
  patch their own copies of the lists:
  - `PendingRequests`: approve and reject;
  - `AppliedProjects`: cancel a join request;
  - `Dashboard`: delete a project.

  These are pure functions over `seq<Project>`, built on a verified `Filter`
  and `MapSeq` and an order-preserving subsequence relation (`Seqs`).
- **Client-side rules.**
  - `MainPage`: the search.
  - `RoleSelection`: the per-project role choice and join guard that the
    project browser and the all-projects page share.
  - `AllProjects`: the all-projects fetch.
  - `EditProject`: the project lookup, the role-tag editor and the form
    schema.
  - `Register`: the registration schema and messages.

  `Text` models `trim`, ASCII `toLowerCase` and `includes`.

The interceptor has no shared state between requests. Every request carries
its own `_retry` marker, so N requests that fail with 401 at the same time
issue N refresh posts, and no in-flight renewal is shared. The model follows
the code, not a single-flight design that coalesces concurrent renewals:
`SessionClient.EveryUnauthorizedRequestRefreshes` proves there is no
coalescing.

Network replies, the confirmation dialog's answer and the email-format test
are parameters of the functions that use them.

## Model

| member | source | states |
|---|---|---|
| SessionClient.Expected | src/Api/axiosInstance.js:12-34 | A refresh is issued iff the first attempt is a 401 on an unmarked request, and then only once. A replay happens iff that refresh succeeded. The marker ends set iff it was set or a refresh was issued. The result is the replay's outcome after a replay, else the first outcome unchanged. |
| SessionClient.Send | src/Api/axiosInstance.js:12-34 | The success handler plus the error handler over a mutable request config: its result, refresh count, replay count and final marker equal `Expected` of the marker's old value. |
| SessionClient.OnRejected | src/Api/axiosInstance.js:14-33 | The error handler, including a failed replay re-entering it with the marker already set, agrees with `Expected`. |
| SessionClient.SuccessPassesThrough | src/Api/axiosInstance.js:13 | A fulfilled response is returned as it is, with no refresh and the marker unchanged. |
| SessionClient.OtherErrorsPassThrough | src/Api/axiosInstance.js:17 | An error with no response, or with a status other than 401, is rejected unchanged and issues no refresh. |
| SessionClient.RefreshFailureRejectsOriginal | src/Api/axiosInstance.js:27-32 | A failed refresh, even one that fails with 401 itself, rejects the original 401 error after exactly one refresh post and no replay. |
| SessionClient.MarkedRequestNotRetried | src/Api/axiosInstance.js:17 | A request already marked `_retry` is settled as it is, with no refresh. |
| SessionClient.RetryBudgetIsOne | src/Api/axiosInstance.js:19 | Two passes of the same config through the interceptor issue at most one refresh in total: no infinite retry loop. |
| SessionClient.RefreshesAtMostOnePerRequest | src/Api/axiosInstance.js:17-26 | A batch of N independent requests issues at most N refresh posts. |
| SessionClient.EveryUnauthorizedRequestRefreshes | src/Api/axiosInstance.js:17-21 | N unmarked requests that all meet a 401 issue exactly N refresh posts: renewals are not coalesced. |
| Common.OrElse | src/Pages/Projects/Main.jsx:78 | The or-default idiom (a value, else a fallback) picks a present non-empty value, otherwise the fallback. A non-empty fallback never yields an empty message. |
| Seqs.Filter | src/Pages/Projects/PendingRequests.jsx:66 | `filter` never lengthens the list, keeps only elements passing the test, and keeps every element that passes. |
| Seqs.FilterIsSubsequence | src/Pages/Projects/PendingRequests.jsx:66 | A filtered list is an order-preserving subsequence of its source. |
| Seqs.FilterCount | src/Pages/Projects/AppliedProjects.jsx:48 | `filter` keeps each passing element's multiplicity and removes every copy of a failing one. |
| Text.Trim | src/Pages/Projects/Main.jsx:59 | `trim` returns a slice `s[a..b]` of its input where everything before `a` and from `b` on is whitespace. The result is empty exactly on all-whitespace input, and otherwise neither starts nor ends with whitespace. |
| Text.TrimIdempotent | src/Pages/Projects/EditProject.jsx:222 | Trimming a trimmed string changes nothing. |
| Text.IncludesIff | src/Pages/Projects/Main.jsx:54 | `includes` holds exactly when the pattern occurs at some position of the string. |
| Text.LowerIdempotent | src/Pages/Projects/Main.jsx:54 | Lower-casing twice is lower-casing once. |
| Projects.UserKey | src/Pages/Projects/PendingRequests.jsx:57-58 | The key of a request's user is the populated `_id` when non-empty, the bare id string as it is, and the object's default string for an empty populated id. |
| Projects.RemoveById | src/Pages/Projects/Dashboard.jsx:41 | Removing by id leaves an order-preserving subsequence with no project of that id and every project of another id. |
| Projects.RemoveByIdCount | src/Pages/Projects/AppliedProjects.jsx:48 | Nothing else changes: each project of another id keeps its count, and the removed id has count zero. |
| Projects.RemoveByIdIdempotent | src/Pages/Projects/AppliedProjects.jsx:48 | Removing the same id twice is removing it once. |
| Projects.RemoveByIdAbsent | src/Pages/Projects/Dashboard.jsx:41 | A list without that id is left as it is. |
| Projects.ProjectsOrEmpty | src/Pages/Projects/Allprojects.jsx:14 | A payload without `projects` shows as the empty list; otherwise the list as sent. |
| Projects.ToggleExpand | src/Pages/Projects/PendingRequests.jsx:27-29 | The expansion collapses iff the clicked card was the expanded one; otherwise the clicked card becomes the expanded one. The same rule holds at AppliedProjects.jsx:30-32. |
| Projects.ToggleTwice | src/Pages/Projects/AppliedProjects.jsx:30-32 | Clicking the same card twice restores a collapsed or self-expanded start, and collapses from any other card. |
| PendingRequests.WithoutUser | src/Pages/Projects/PendingRequests.jsx:56-59 | The decided project's requests lose every entry whose user key is the target. Every other entry stays, in order. |
| PendingRequests.WithoutUserCount | src/Pages/Projects/PendingRequests.jsx:56-59 | Other users' entries keep their multiplicity; the target user's count drops to zero. |
| PendingRequests.DecidePatch | src/Pages/Projects/PendingRequests.jsx:51-67 | Every remaining project has pending requests. Other projects come from the old list unchanged, and each with requests is kept. The decided project appears only with the target's requests removed, and is kept iff requests remain. |
| PendingRequests.DecidedUserGone | src/Pages/Projects/PendingRequests.jsx:54-64 | After the patch, no request of the target user remains in the decided project. |
| PendingRequests.DecideKeepsOrder | src/Pages/Projects/PendingRequests.jsx:51-67 | The surviving projects keep their relative order. |
| PendingRequests.DecideIdempotent | src/Pages/Projects/PendingRequests.jsx:51-67 | Applying the same decision twice equals applying it once. |
| PendingRequests.NoMemberAddedLocally | src/Pages/Projects/PendingRequests.jsx:61-64 | Each project shown afterwards has the member list of the project with its id before: an approval adds no member locally. |
| PendingRequests.RejectAlertMisspelled | src/Pages/Projects/PendingRequests.jsx:49 | As written, a reject is announced as "Rejectd!" / "Request has been rejectd.". |
| PendingRequests.SuccessAlertSpelledOut | src/Pages/Projects/PendingRequests.jsx:49 | The corrected alert says "Approved!" or "Rejected!". The approve alert equals the one the page already shows. |
| PendingRequests.ErrorAlert | src/Pages/Projects/PendingRequests.jsx:70-74 | A failed decision always shows a non-empty error text with the error icon. |
| PendingRequests.HandleActionAsWritten | src/Pages/Projects/PendingRequests.jsx:31-77 | The handler as written. A declined dialog changes nothing and shows nothing. A failed call keeps the list and shows the error alert. An accepted call applies `DecidePatch` and shows the as-written success alert. |
| PendingRequests.HandleAction | src/Pages/Projects/PendingRequests.jsx:31-77 | The corrected handler: it is the handler as written except that an accepted call shows the past-tense alert (`SuccessAlert`). Its list result equals the as-written one in every case. |
| PendingRequests.RejectAnnouncedMisspelled | src/Pages/Projects/PendingRequests.jsx:49 | On the page as written, an accepted reject shows "Rejectd!" / "Request has been rejectd."; the corrected handler shows "Rejected!" / "Request has been rejected.". |
| PendingRequests.ApproveAndRejectPatchAlike | src/Pages/Projects/PendingRequests.jsx:51-67 | Approve and reject patch the list identically. |
| AppliedProjects.CancelCallAsWritten | src/Api/userApi.js:186-195 | Without the `await`, the cancel call resolves whatever the server answers. |
| AppliedProjects.CancelIgnoresServerFailure | src/Api/userApi.js:188-189 | As written, a cancel the server refuses still removes the project from the list and announces "Cancelled". |
| AppliedProjects.HandleCancelRequestAsWritten | src/Pages/Projects/AppliedProjects.jsx:34-55 | The page as it behaves over the wrapper as written: a confirmed cancel removes the project and shows "Cancelled" whatever the server answers; a declined dialog does nothing. |
| AppliedProjects.HandleCancelRequest | src/Pages/Projects/AppliedProjects.jsx:34-55 | The corrected handler, with the wrapper's post awaited: a confirmed cancel whose awaited call resolves removes the project, with the cancelled alert. A call that fails keeps the list and shows the error alert; a declined dialog does nothing. |
| AppliedProjects.HandlersAgreeOnSuccess | src/Pages/Projects/AppliedProjects.jsx:45-49 | The handler as written and the corrected one agree whenever the server accepts. |
| AppliedProjects.CancelTwice | src/Pages/Projects/AppliedProjects.jsx:48 | Cancelling the same project twice leaves the list as one cancel does, and the list never grows. |
| Dashboard.ExpandedAfterDelete | src/Pages/Projects/Dashboard.jsx:43 | The expanded view closes iff it showed the deleted id; otherwise it is kept. |
| Dashboard.DeleteErrorAlert | src/Pages/Projects/Dashboard.jsx:45 | A failed delete always shows a non-empty error text with the error icon. |
| Dashboard.HandleDelete | src/Pages/Projects/Dashboard.jsx:27-48 | The state changes only on a confirmed, accepted delete, which removes the id from the list and closes a view showing it. An alert is shown iff the dialog was confirmed: "Deleted!" when the server accepts, `DeleteErrorAlert` of the error when it refuses. |
| Dashboard.OpenCard | src/Pages/Projects/Dashboard.jsx:54 | Clicking a card shows it in the expanded view and leaves the list alone. |
| Dashboard.CloseCard | src/Pages/Projects/Dashboard.jsx:104 | The close button empties the expanded view and leaves the list alone. |
| Dashboard.DeleteLeavesNoTrace | src/Pages/Projects/Dashboard.jsx:41-43 | After a delete, the id is gone from the list and from the view. The rest keep their order and their counts. |
| Dashboard.DeleteOpenProjectCloses | src/Pages/Projects/Dashboard.jsx:43 | Deleting the project that is open closes the view. |
| RoleSelection.RoleChange | src/Pages/Projects/Main.jsx:62-67 | Choosing a role sets it for that project only. The keys become the old keys plus that project, and every other choice is kept. The same code is at Allprojects.jsx:39-44. |
| RoleSelection.JoinGuard | src/Pages/Projects/Main.jsx:70-74 | A join is sent iff the project has a non-empty chosen role, and then with exactly that role. The same code is at Allprojects.jsx:24-29. |
| RoleSelection.SelectThenJoin | src/Pages/Projects/Allprojects.jsx:23-44 | Choosing a role and then joining sends exactly that role. Choosing the empty placeholder sends nothing. |
| RoleSelection.SelectionIsPerProject | src/Pages/Projects/Main.jsx:62-74 | A choice on one project does not change what joining another sends. |
| RoleSelection.JoinAlert | src/Pages/Projects/Main.jsx:76-81 | After a sent join, the alert text is never empty. Its icon is success iff the call resolved. |
| RoleSelection.HandleJoin | src/Pages/Projects/Main.jsx:69-82 | The guard decides what is sent. Nothing sent shows the select-role warning; something sent shows the join alert for the reply. |
| MainPage.Search | src/Pages/Projects/Main.jsx:49-60 | The result is an order-preserving subsequence of the full list. An all-whitespace term gives the full list. Any other term gives exactly the projects matching the untrimmed term in title, category or a role. |
| MainPage.SearchIdempotent | src/Pages/Projects/Main.jsx:53-59 | Searching the result again with the same term changes nothing. |
| MainPage.SearchIgnoresCase | src/Pages/Projects/Main.jsx:54-56 | Lower-casing the term does not change the result. |
| MainPage.UntrimmedTermMatches | src/Pages/Projects/Main.jsx:53-59 | The term " web" finds no project titled "web": blankness is judged on the trimmed term, but matching uses the raw one. |
| MainPage.AnyWithId | src/Pages/Projects/Main.jsx:45 | `some` holds iff some project in the list has the id. |
| MainPage.IsApplied | src/Pages/Projects/Main.jsx:44-46 | A project reads as applied iff it is expanded and the applied list holds its id. |
| MainPage.NotAppliedAfterRemoval | src/Pages/Projects/Main.jsx:44-46 | Once a project's id is removed from the applied list, it no longer reads as applied. |
| AllProjects.AfterFetch | src/Pages/Projects/Allprojects.jsx:10-21 | A successful fetch shows `projects` or the empty list. A failure keeps the list and shows the server's error, or the fixed message. |
| AllProjects.MissingProjectsShowEmpty | src/Pages/Projects/Allprojects.jsx:14 | A payload without `projects` shows an empty list and no error. |
| AllProjects.FetchErrorMessage | src/Pages/Projects/Allprojects.jsx:16 | A server-explained failure shows that explanation. An unexplained one shows "Failed to fetch projects". |
| EditProject.AddRole | src/Pages/Projects/EditProject.jsx:219-239 | The Enter key and the Add button add at most one tag, at the end, and keep the existing ones. A tag is added iff the trimmed input is non-empty and new; it is the trimmed input, and the input is cleared. Otherwise nothing changes. A non-empty trimmed input is in the list afterwards, and no duplicate is introduced. |
| EditProject.AddRoleToForm | src/Pages/Projects/EditProject.jsx:222-226 | On the whole form, only the roles and the role input change, as `AddRole` says. A form without roles is left as it is. |
| EditProject.RemoveRoleAt | src/Pages/Projects/EditProject.jsx:260-263 | Removing tag i shortens the list by one and shifts the later tags down. The multiset loses exactly that tag. Without duplicates, the removed tag is gone and no duplicates appear. |
| EditProject.RemoveUndoesAdd | src/Pages/Projects/EditProject.jsx:222-263 | Removing the tag just added restores the list. |
| EditProject.FindProject | src/Pages/Projects/EditProject.jsx:34 | `find` returns the first project with the id, and nothing iff no project has it. |
| EditProject.LoadForm | src/Pages/Projects/EditProject.jsx:30-53 | A failed fetch, or a payload without `projects`, reports "Failed to fetch project details.". "Project not found." is reported iff the list lacks the id. When the list has the id, the form opens on the first project with that id (`FindProject`'s match), with an empty role input. |
| EditProject.AddRoleKeepsRolesRule | src/Pages/Projects/EditProject.jsx:24-27 | Adding a tag never breaks the roles rule (at least one role, none empty), and a first non-blank tag satisfies it. |
| EditProject.RemoveRoleAndRolesRule | src/Pages/Projects/EditProject.jsx:24-27 | Removing a tag keeps the roles rule iff another tag remains. |
| EditProject.Save | src/Pages/Projects/EditProject.jsx:20-71 | The values are sent iff the form passes the schema (title, category and description present, at least one role, none empty); an invalid form changes nothing. A sent form clears both messages and then shows the message `SaveMessage` gives for the reply. |
| EditProject.AddRoleKeepsFormSavable | src/Pages/Projects/EditProject.jsx:20-28 | A form that can be saved can still be saved after Enter or Add. |
| EditProject.NoSaveWithoutRoles | src/Pages/Projects/EditProject.jsx:24-27 | Removing the only role makes the form unsavable: nothing is sent and the messages stay. |
| EditProject.SaveMessage | src/Pages/Projects/EditProject.jsx:55-71 | A saved edit shows the server's success text or the fixed one, with no error. A failed save shows the server's error or "Failed to update project". A success message appears iff the save resolved. |
| Register.FieldErrors | src/Pages/User/Register.jsx:54-69 | Each field is rejected exactly when its rule fails: username length 3 to 20, email present and well-formed under any domain, department one of the twelve listed, password of at least 6 characters. |
| Register.Submit | src/Pages/User/Register.jsx:70-87 | A request is sent iff no field is rejected; an invalid form changes nothing. Success clears the error and shows the server's message or "Registration successful!". Failure shows the server's error or "Registration error." and keeps the success text. |
| Register.SentIffAllRulesHold | src/Pages/User/Register.jsx:54-87 | Submitting sends a request exactly when all four field rules hold. |
| Register.OutcomeMessageShown | src/Pages/User/Register.jsx:70-87 | After a sent submission, success shows a non-empty success message and no error, and failure shows a non-empty error (an earlier success text is kept). |
| Register.UserNameBoundsInclusive | src/Pages/User/Register.jsx:55-58 | Usernames of 3 and 20 characters pass; 2 and 21 fail. |

## Left out

- Rendering, routing and navigation, SweetAlert dialogs beyond their answer and text, and the timers that clear messages or navigate after a delay.
- The network, cookies and the transport: each call's outcome is a parameter. The refresh post's body and credentials are not modelled.
- Concurrency and interleaving: each request's trip through the interceptor is modelled on its own. A batch of requests is modelled as independent exchanges, which is what the code does because no state is shared.
- The server's rules: the authoritative membership state, and what approve, reject, cancel and delete do server-side. Only the local list patches are modelled.
- The API wrappers in src/Api/userApi.js other than `cancelJoinRequest`. They await their call, and their results or thrown errors are the `Reply` parameters.
- The login, home, contact, password-reset and verification pages, the sidebar and the routes.
- The Yup email-format test: a parameter `isEmail` of `Register.EmailOk`. The domain rule that is commented out at Register.jsx:61 is not applied.
- Text.Lower: lower-cases the ASCII letters only, not the full Unicode mapping of `toLowerCase`.
- Register.FieldErrors: string length counts Unicode scalar values, not the UTF-16 code units of JavaScript's `length`, so the two differ outside the Basic Multilingual Plane.
- Projects.UserKey: a request whose `user` is null or absent, where the filter would throw, is not modelled.
- EditProject.AddRoleToForm: when `roles` is missing, a blank input does nothing and a non-blank one makes the handler throw; the model returns the form unchanged in both cases, and the thrown error itself is not modelled.
- EditProject.RemoveRoleAt: the index must be in range, because only rendered tags have remove buttons.
- EditProject.LoadForm: the "Loading project..." placeholder and the form's `resetForm` after saving are not modelled.
- Register.Submit: the page's `resetForm` after success is not modelled.

## Findings

| source | as written | input that shows it | evidently intended | confidence | as-written member | corrected member |
|---|---|---|---|---|---|---|
| src/Pages/Projects/PendingRequests.jsx:49 | the success alert appends "d" to the action name | action "reject" gives "Rejectd!" and "Request has been rejectd." | "Rejected!" and "Request has been rejected." | high (not executed) | PendingRequests.RejectAnnouncedMisspelled | PendingRequests.HandleAction |
| src/Api/userApi.js:188 | `cancelJoinRequest` does not await its post and returns `data` of a pending promise, so it always resolves | a server reply that refuses the cancel: the page still removes the project and says "Cancelled" | await the post, so that a refusal reaches the page's catch block and keeps the list | high (not executed) | AppliedProjects.CancelIgnoresServerFailure | AppliedProjects.HandleCancelRequest |
