# ComplaintHub dashboard core, modelled in Dafny

ComplaintHub is a browser-only complaint dashboard. Beneath its views it has
a small amount of sequential logic, and that logic is what this project models:

- **complaint store:** new records are prepended; role-based visibility decides
  who sees which record; the seeded mock data has its own generators and lookups.
- **chat store:** a list of sessions plus the current session. On it sit a
  first-match keyword intent classifier, the canned replies used when no
  Gemini key is set, the transcript posted to Gemini, and the two staff text
  templates (a reply letter and a complaint summary).
- **list pipelines:** the management table (search, status filter,
  rank-based sort, column/direction toggle, role guard) and the complaints
  list page (role scope, four filters, newest first, distinct filter choices).
- **dashboard:** per-status counts and the five most recent records.
- **detail page:** the editing steps on one complaint (append a trimmed
  comment, replace the status) and who may change the status.
- **access decisions:** credential matching, the signup checks, the route
  gate, and the role-to-navigation table.
- **complaint form:** its length rules and attachment list.

One module per source file:

| module | source |
|---|---|
| `Data` | `src/lib/data.ts` |
| `AuthContext` | `src/contexts/AuthContext.tsx` |
| `ComplaintsContext` | `src/contexts/ComplaintsContext.tsx` |
| `ChatContext` | `src/contexts/ChatContext.tsx` |
| `ManageComplaints` | `src/pages/ManageComplaints.tsx` |
| `ComplaintsPage` | `src/pages/ComplaintsPage.tsx` |
| `Dashboard` | `src/pages/Dashboard.tsx` |
| `ComplaintDetail` | `src/pages/ComplaintDetail.tsx` |
| `ProtectedRoute` | `src/components/ProtectedRoute.tsx` |
| `ComplaintForm` | `src/components/complaints/ComplaintForm.tsx` |
| `DashboardLayout` | `src/components/DashboardLayout.tsx` |

Four helper modules support them:

- `Wrappers`: `Option` and `Outcome`.
- `Text`: ASCII lowercasing, substring containment, ECMAScript `trim`, decimal rendering and joining.
- `Seqs`: order-preserving filter, first match, a stable insertion sort, and de-duplication in first-appearance order.
- `Rand`: `Math.random()` values.

State that the source keeps in React state and updates step by step is held in classes:

- `AuthContext.AuthProvider`
- `ComplaintsContext.ComplaintsProvider`
- `ChatContext.ChatProvider`
- `ManageComplaints.SortControl`
- `ComplaintDetail.ComplaintDetailPage`
- `ComplaintForm.ComplaintFormState`

Their methods state the whole new state in terms of pure functions, and lemmas prove properties of those functions. Everything else is pure functions.

Some inputs that the source reads from the environment are parameters here:

- **Random draws:** each `Math.random()` result is a `Rand.Unit`, a real in [0, 1) supplied by the caller. The generator invariants therefore hold for every outcome of the random choices.
- **Fresh ids:** `uuidv4()` and `generateId()` results are passed in as strings.
- **Time:** the clock is an integer of milliseconds, and ISO timestamps are those integers.
- **Date rendering:** `format(..., "PPpp")` is a function parameter.
- **Environment values:** the signed-in user, the Gemini key and the outcome of the Gemini request are passed in.

The complaints list page reads the module constant `mockComplaints`, not the store that `addComplaint` prepends to. The model keeps this: `ComplaintsPage.ComplaintsList` takes the seeded list `mock`. Every record it shows is therefore a seeded one, and a record filed through the form is never among them.

## Model

| member | source | states |
|---|---|---|
| `Data.CategoryNamesDistinct` | src/lib/data.ts:5-11 | category literals are pairwise distinct, so a name identifies its category |
| `Data.PriorityNamesDistinct` | src/lib/data.ts:13 | priority literals are pairwise distinct |
| `Data.StatusNamesDistinct` | src/lib/data.ts:15-17 | status literals are pairwise distinct |
| `Data.MockComment` | src/lib/data.ts:88-100 | the comment at index i has id "comment-(i+1)"; its user id, name and role come from one role index, so they agree; it is dated within the last four days |
| `Data.MockComments` | src/lib/data.ts:84-102 | `count` comments, ids "comment-1".."comment-n" in order, each with an agreeing identity and in the date window |
| `Data.MockComplaint` | src/lib/data.ts:59-79 | the record at index i has id "(i+1)"; `assignedTo` is absent exactly for Pending and otherwise "1" or "3"; comments are empty for Pending and otherwise 1 to 3, all by staff identities; owner "1", "2" or "3"; created within the last 59 days and updated 0 to 9 days later; no attachments |
| `Data.MockComplaints` | src/lib/data.ts:46-81 | `count` records with ids "1".."n" in order, each with the shape above |
| `Data.MockIdsUnique` | src/lib/data.ts:68 | generated ids are pairwise distinct |
| `Data.MonthEntry` | src/lib/data.ts:119-125 | pending in [5,34], inProgress in [5,29], resolved in [10,49], closed in [5,24] |
| `Data.GenerateMonthlyData` | src/lib/data.ts:113-126 | twelve entries in month order, each within those ranges |
| `Data.GenerateCategoryData` | src/lib/data.ts:133-147 | one entry per category in declaration order, with values in [20,119] |
| `Data.GeneratePriorityData` | src/lib/data.ts:154-161 | one entry per priority in order, with values in [10,109] |
| `Data.GetComplaintById` | src/lib/data.ts:170-172 | absent iff no record has the id; otherwise the first record with it |
| `Data.GetUserComplaints` | src/lib/data.ts:174-176 | exactly the records of that owner, as an order-preserving subsequence |
| `Data.GetAssignedComplaints` | src/lib/data.ts:178-180 | exactly the records assigned to that id, as an order-preserving subsequence |
| `AuthContext.MatchCredentials` | src/contexts/AuthContext.tsx:76-78 | absent iff no account matches both email and password; otherwise the first account that does |
| `AuthContext.EmailTaken` | src/contexts/AuthContext.tsx:112 | true iff some account has the e-mail address, that is iff a lookup by that address finds one |
| `AuthContext.AsUser` | src/contexts/AuthContext.tsx:85-90 | the signed-in user copies id, name, email and role from the account, and carries no password |
| `AuthContext.MockEmailsDistinct` | src/contexts/AuthContext.tsx:27-49 | the three built-in accounts have distinct emails |
| `AuthContext.MatchIsUnique` | src/contexts/AuthContext.tsx:27-49 | any built-in account whose credentials are given is the match found |
| `AuthContext.SignupId` | src/contexts/AuthContext.tsx:119 | a new account's id is `mockUsers.length + 1`, always "4" |
| `AuthContext.AuthProvider.constructor` | src/contexts/AuthContext.tsx:56-57 | starts with no user and loading |
| `AuthContext.AuthProvider.RestoreSession` | src/contexts/AuthContext.tsx:59-66 | a stored user is restored; loading ends |
| `AuthContext.AuthProvider.Login` | src/contexts/AuthContext.tsx:69-103 | succeeds iff an account matches; on failure, "Invalid email or password" and nothing changes; on success, the matched account without its password is signed in and stored; loading ends either way |
| `AuthContext.AuthProvider.Signup` | src/contexts/AuthContext.tsx:106-136 | fails with "Email already in use" iff the email belongs to a built-in account; otherwise signs in user "4" with role `user`; loading ends either way |
| `AuthContext.AuthProvider.Logout` | src/contexts/AuthContext.tsx:139-147 | no user, not authenticated, nothing stored |
| `AuthContext.AuthProvider.IsAuthenticated` | src/contexts/AuthContext.tsx:147 | authenticated exactly when a user is signed in |
| `ComplaintsContext.OwnerId` | src/contexts/ComplaintsContext.tsx:35 | the acting user's id when there is one and it is non-empty; "1" in every other case |
| `ComplaintsContext.NewComplaint` | src/contexts/ComplaintsContext.tsx:28-36 | fresh id, status Pending, `createdAt == updatedAt == now`, the owner from above; the caller's fields are copied unchanged |
| `ComplaintsContext.FilteredComplaints` | src/contexts/ComplaintsContext.tsx:41-53 | membership iff visible: own records for `user`, assigned-or-Pending for `support`, all for `admin`, none without a user; each visible record as often as stored; always an order-preserving subsequence |
| `ComplaintsContext.NewComplaintIsVisible` | src/contexts/ComplaintsContext.tsx:28-49 | a freshly filed record is visible to its owner and to every support account |
| `ComplaintsContext.ComplaintsProvider.constructor` | src/contexts/ComplaintsContext.tsx:23 | the store starts as the seeded list |
| `ComplaintsContext.ComplaintsProvider.AddComplaint` | src/contexts/ComplaintsContext.tsx:25-39 | the store becomes `[new] + old`: one longer, with the old records after it in order |
| `ChatContext.DetectIntent` | src/contexts/ChatContext.tsx:205-243 | the first keyword set that occurs in the lowercased text, tested in the order create, status, solution, summary, routing, decides the intent; null when none occurs; never `generate_response` |
| `ChatContext.DetectIntentIgnoresCase` | src/contexts/ChatContext.tsx:208 | two messages with the same lowercasing get the same intent |
| `ChatContext.ReportWinsOverStatus` | src/contexts/ChatContext.tsx:210-222 | a message mentioning both "report" and "status" is classified `create_complaint` |
| `ChatContext.StatusWithoutCreateIsCheck` | src/contexts/ChatContext.tsx:210-222 | a status keyword without any create keyword gives `check_status` |
| `ChatContext.HelpWinsOverSummary` | src/contexts/ChatContext.tsx:224-235 | a message with "help" and no create or status keyword is `suggest_solution`, even when it also says "summarize" |
| `ChatContext.StatusSentence` | src/contexts/ChatContext.tsx:292 | the reply names the count, "complaint(s)", the first record's title and its status |
| `ChatContext.FaqAnswer` | src/contexts/ChatContext.tsx:299-312 | the first topic whose words occur decides the answer, tested in the order billing, technical, product, service; none iff no topic word occurs |
| `ChatContext.AppWinsOverProduct` | src/contexts/ChatContext.tsx:301-305 | a message with "app" and no billing word gets the technical answer, even when it also mentions a product |
| `ChatContext.FallbackReply` | src/contexts/ChatContext.tsx:282-317 | create gives a create prompt; status gives the login prompt without a user, the create prompt with no visible records, and otherwise the status sentence over the visible records; solution gives the FAQ answer or a solution prompt; anything else gives a greeting |
| `ChatContext.StatusReplyCountsOwnComplaints` | src/contexts/ChatContext.tsx:288-292 | a `user`-role account with records hears their number |
| `ChatContext.SpeakerLabel` | src/contexts/ChatContext.tsx:131 | "User" exactly for user turns, "Assistant" for all others, the system seed included |
| `ChatContext.TranscriptLines` | src/contexts/ChatContext.tsx:131 | one "speaker: content" line per message, in order |
| `ChatContext.Transcript` | src/contexts/ChatContext.tsx:124-131 | the prompt is the system prompt and a newline, then the message lines joined by newlines, then the "Assistant:" cue; every message's line occurs in it |
| `ChatContext.TranscriptGrowsByOneLine` | src/contexts/ChatContext.tsx:131 | one more message adds exactly one line to the transcript body |
| `ChatContext.GeminiReply` | src/contexts/ChatContext.tsx:143-147 | no reply iff the request fails; a non-empty answer is returned as given; a missing or empty answer gives "Sorry, no response." |
| `ChatContext.ResolveReply` | src/contexts/ChatContext.tsx:273-318 | with a key, the Gemini reply; without one, the canned reply |
| `ChatContext.Letter` | src/contexts/ChatContext.tsx:381 | the letter opens with "Dear customer," and contains the category, title and priority |
| `ChatContext.ReplyLetter` | src/contexts/ChatContext.tsx:381 | the reply letter to a record opens with "Dear customer," |
| `ChatContext.ReplyLetterMentions` | src/contexts/ChatContext.tsx:381 | the letter contains the record's lowercased category, its title and its priority |
| `ChatContext.CommentCount` | src/contexts/ChatContext.tsx:394 | the number of comments, 0 when they are absent |
| `ChatContext.SummaryText` | src/contexts/ChatContext.tsx:394 | opens with "Summary of complaint #" and the id; contains the category, priority, status, "Created:" and "Key issue:" lines; ends with "- N comments in thread" |
| `ChatContext.RenderFirst` | src/contexts/ChatContext.tsx:375-379 | the rendering of the first record with the id, or "No complaint found with this ID." exactly when no record has it |
| `ChatContext.LettersAreNotNotFound` | src/contexts/ChatContext.tsx:378-381 | no drafted letter is the not-found reply, so the two outcomes are told apart |
| `ChatContext.SummariesAreNotNotFound` | src/contexts/ChatContext.tsx:391-394 | no summary is the not-found reply |
| `ChatContext.DraftResponse` | src/contexts/ChatContext.tsx:372-382 | "No complaint found with this ID." iff no record has the id; otherwise the reply letter to the first record with that id |
| `ChatContext.SummarizeComplaint` | src/contexts/ChatContext.tsx:385-395 | "No complaint found with this ID." iff no record has the id; otherwise the summary of the first record with that id |
| `ChatContext.SeedMessage` | src/contexts/ChatContext.tsx:154-160 | a system message with the seed text |
| `ChatContext.NewSession` | src/contexts/ChatContext.tsx:151-165 | exactly one system message, titled "New Conversation", created and updated now |
| `ChatContext.ClearedSession` | src/contexts/ChatContext.tsx:182-193 | id, title and creation time kept; history reset to one system message |
| `ChatContext.WithMessage` | src/contexts/ChatContext.tsx:260-264 | the message appended at the end; id, title and creation time kept; a seeded history stays seeded |
| `ChatContext.ReplaceById` | src/contexts/ChatContext.tsx:194-198 | sessions with that id are replaced; all others are kept in place; the length is unchanged |
| `ChatContext.ReplaceByIdTwice` | src/contexts/ChatContext.tsx:267-271 | replacing the user-turn session and then the final one equals replacing once with the final one |
| `ChatContext.ReplaceByIdKeepsSeeded` | src/contexts/ChatContext.tsx:194-198 | replacement keeps every stored history seeded and stores the replacement |
| `ChatContext.ChatProvider.constructor` | src/contexts/ChatContext.tsx:86-88 | no sessions, no current session, not loading |
| `ChatContext.ChatProvider.InitializeDefaultSession` | src/contexts/ChatContext.tsx:91-95 | opens a new session only when there is none |
| `ChatContext.ChatProvider.CreateNewSession` | src/contexts/ChatContext.tsx:151-169 | appends one new seeded session and makes it current |
| `ChatContext.ChatProvider.SwitchSession` | src/contexts/ChatContext.tsx:172-177 | an unknown id changes nothing; otherwise the first session with that id becomes current; the session list is unchanged |
| `ChatContext.ChatProvider.ClearCurrentSession` | src/contexts/ChatContext.tsx:180-202 | a no-op without a current session; otherwise the cleared session replaces the current one and every stored session with its id |
| `ChatContext.ChatProvider.SendMessage` | src/contexts/ChatContext.tsx:246-347 | nothing without a current session; otherwise the user turn, then the assistant turn when a reply is produced, or only the user turn when producing it throws; other sessions untouched; loading ends false; the posted prompt is the transcript including the user turn |
| `ChatContext.SendAppendsTwoTurns` | src/contexts/ChatContext.tsx:252-340 | a successful send grows the history by exactly two messages, the user's content and then the reply, with the earlier history unchanged |
| `ManageComplaints.SearchFilter` | src/pages/ManageComplaints.tsx:48-55 | a blank query keeps all; otherwise membership iff the lowercased title or description contains the lowercased untrimmed query; each kept record as often as before; order-preserving |
| `ManageComplaints.StatusFilter` | src/pages/ManageComplaints.tsx:58-60 | "all" keeps all; otherwise exactly the records with that status name, each as often as before |
| `ManageComplaints.StatusChoiceSelectsOne` | src/pages/ManageComplaints.tsx:58-60 | choosing a status name keeps exactly the records with that status |
| `ManageComplaints.PriorityRank` | src/pages/ManageComplaints.tsx:69 | ranks Low=1 to Critical=4, one per priority in declaration order |
| `ManageComplaints.StatusRank` | src/pages/ManageComplaints.tsx:75 | ranks Pending=1 to Closed=4, one per status in declaration order |
| `ManageComplaints.IsStaff` | src/pages/ManageComplaints.tsx:38-41 | the guard lets through exactly the signed-in accounts whose role is not `user` |
| `ManageComplaints.TableRows` | src/pages/ManageComplaints.tsx:44-87 | a permutation of the stored records passing search and status, each exactly as often as stored, ordered by the column and direction |
| `ManageComplaints.SortRows` | src/pages/ManageComplaints.tsx:63-80 | a permutation of the rows, ordered by the column's key ascending or descending |
| `ManageComplaints.ManageComplaintsView` | src/pages/ManageComplaints.tsx:38-87 | non-staff are redirected to "/unauthorized"; staff get the searched and status-filtered records, each exactly as often as stored, sorted by the chosen column and order |
| `ManageComplaints.UnfilteredTableIsPermutation` | src/pages/ManageComplaints.tsx:44-87 | with no query and "all", the table is a permutation of the store |
| `ManageComplaints.SortControl.constructor` | src/pages/ManageComplaints.tsx:34-35 | starts sorted by date, descending |
| `ManageComplaints.SortControl.ToggleSort` | src/pages/ManageComplaints.tsx:89-96 | the same column flips the direction; another column selects it, descending |
| `ComplaintsPage.RoleScope` | src/pages/ComplaintsPage.tsx:32-34 | a `user` account keeps only its own records; staff and visitors keep all; each kept record as often as seeded |
| `ComplaintsPage.CategoryFilter` | src/pages/ComplaintsPage.tsx:52-54 | "all" is the identity; otherwise exactly the records of that category name, each as often as before |
| `ComplaintsPage.PriorityFilter` | src/pages/ComplaintsPage.tsx:57-59 | "all" is the identity; otherwise exactly the records of that priority name, each as often as before |
| `ComplaintsPage.Narrowed` | src/pages/ComplaintsPage.tsx:29-59 | the five filters combine conjunctively over the seeded list, each passing record kept as often as seeded |
| `ComplaintsPage.ComplaintsList` | src/pages/ComplaintsPage.tsx:28-71 | a permutation of the seeded records passing every filter, each exactly as often as seeded, newest first |
| `ComplaintsPage.AdminWithoutFiltersSeesAll` | src/pages/ComplaintsPage.tsx:28-71 | an admin with a blank query and every choice "all" sees a permutation of the seeded list |
| `ComplaintsPage.CategoriesOf` | src/pages/ComplaintsPage.tsx:74 | the category of every seeded record, in order |
| `ComplaintsPage.PrioritiesOf` | src/pages/ComplaintsPage.tsx:78 | the priority of every seeded record, in order |
| `ComplaintsPage.UniqueCategories` | src/pages/ComplaintsPage.tsx:73-75 | each category of some seeded record, once, in order of first appearance |
| `ComplaintsPage.UniquePriorities` | src/pages/ComplaintsPage.tsx:77-79 | each priority of some seeded record, once, in order of first appearance |
| `Dashboard.StatusCountsSum` | src/pages/Dashboard.tsx:38-41 | the four per-status counts add up to the list length |
| `Dashboard.CountStatus` | src/pages/Dashboard.tsx:38-41 | a status count is at most the length, and zero exactly when no record has the status |
| `Dashboard.ComputeStats` | src/pages/Dashboard.tsx:37-43 | the total is the length; each count is the number of records with that status; the counts sum to the total |
| `Dashboard.RecentComplaints` | src/pages/Dashboard.tsx:45-50 | min(5, n) records, newest first, drawn from the list; no record left out is newer than one shown |
| `ComplaintDetail.CanUpdateStatus` | src/pages/ComplaintDetail.tsx:149-150 | the same accounts the management page admits: every signed-in account but a `user`-role one |
| `ComplaintDetail.AssigneeLabel` | src/pages/ComplaintDetail.tsx:313-317 | any id other than "1" and "3" shows as "Staff #id" |
| `ComplaintDetail.AssigneeLabelNamesStaff` | src/pages/ComplaintDetail.tsx:313-317 | "1" and "3" show the names of the built-in staff accounts with those ids |
| `ComplaintDetail.AuthoredComment` | src/pages/ComplaintDetail.tsx:105-112 | id "comment-<now>", the trimmed text, and the author copied from the user |
| `ComplaintDetail.WithComment` | src/pages/ComplaintDetail.tsx:114-117 | the comment is appended after the earlier ones, which are unchanged (absent counts as none); every other field is kept |
| `ComplaintDetail.WithStatus` | src/pages/ComplaintDetail.tsx:131-135 | only the status and `updatedAt` change |
| `ComplaintDetail.ComplaintDetailPage.constructor` | src/pages/ComplaintDetail.tsx:44-49 | the record with the route's id, an empty comment box, an empty status choice |
| `ComplaintDetail.ComplaintDetailPage.EditComment` | src/pages/ComplaintDetail.tsx:47 | the comment box holds the typed text |
| `ComplaintDetail.ComplaintDetailPage.SubmitComment` | src/pages/ComplaintDetail.tsx:97-124 | a blank comment changes nothing; with a user, the trimmed comment is appended and the box emptied; without one, nothing is appended; submitting ends |
| `ComplaintDetail.ComplaintDetailPage.ChangeStatus` | src/pages/ComplaintDetail.tsx:126-139 | callable only by an account that may update the status; the select shows the new status, and the record takes it with a new `updatedAt`; nothing else changes |
| `ComplaintDetail.SubmittedCommentIsTrimmed` | src/pages/ComplaintDetail.tsx:98-107 | a submitted comment is non-empty and has no surrounding whitespace |
| `ProtectedRoute.Navigation` | src/components/ProtectedRoute.tsx:18-30 | no navigation while loading; "/login" without a user; "/unauthorized" iff the user's role is not admitted |
| `ProtectedRoute.Render` | src/components/ProtectedRoute.tsx:32-48 | the loading view iff loading; the children iff not loading, signed in and admitted |
| `ProtectedRoute.NavigatesIffNothing` | src/components/ProtectedRoute.tsx:18-48 | the gate navigates exactly when it renders nothing |
| `ProtectedRoute.OpenRouteAdmitsEveryone` | src/components/ProtectedRoute.tsx:21-28 | a route without roles admits every signed-in user |
| `ComplaintForm.DefaultValues` | src/components/complaints/ComplaintForm.tsx:49-54 | empty texts, "Technical Issue", "Medium" |
| `ComplaintForm.Validate` | src/components/complaints/ComplaintForm.tsx:24-30 | no errors iff the title has at least 5 characters and the description at least 20; each message present iff its rule is broken |
| `ComplaintForm.ValidationIgnoresChoices` | src/components/complaints/ComplaintForm.tsx:27-28 | category and priority never change the outcome |
| `ComplaintForm.DropIndexFrom` | src/components/complaints/ComplaintForm.tsx:66 | the filter from a position on drops exactly that index |
| `ComplaintForm.DropIndex` | src/components/complaints/ComplaintForm.tsx:65-67 | exactly index i is removed and the rest keep their order; an out-of-range index removes nothing |
| `ComplaintForm.AttachmentNames` | src/components/complaints/ComplaintForm.tsx:82 | undefined iff there are no files; otherwise their names in order |
| `ComplaintForm.SubmittedInput` | src/components/complaints/ComplaintForm.tsx:77-83 | title, description, category and priority are passed on; the attachment names as above |
| `ComplaintForm.ComplaintFormState.constructor` | src/components/complaints/ComplaintForm.tsx:35-36 | defaults, no attachments, not submitting |
| `ComplaintForm.ComplaintFormState.Enter` | src/components/complaints/ComplaintForm.tsx:40-47 | the values are replaced and the attachments kept |
| `ComplaintForm.ComplaintFormState.HandleFileChange` | src/components/complaints/ComplaintForm.tsx:57-63 | new files follow the earlier ones in order; an empty or missing selection changes nothing |
| `ComplaintForm.ComplaintFormState.RemoveAttachment` | src/components/complaints/ComplaintForm.tsx:65-67 | the attachment list loses exactly that index |
| `ComplaintForm.ComplaintFormState.Submit` | src/components/complaints/ComplaintForm.tsx:69-95 | invalid values are reported and nothing changes; valid values put a new complaint at the front of the store and reset the form with no attachments |
| `DashboardLayout.EmptyKeyNamesNoRole` | src/components/DashboardLayout.tsx:55 | no role is named by the empty string |
| `DashboardLayout.VisibleNavItems` | src/components/DashboardLayout.tsx:54-56 | exactly the table rows listing the user's role, in table order |
| `DashboardLayout.NoUserNoItems` | src/components/DashboardLayout.tsx:55 | without a user no item is shown |
| `DashboardLayout.StaffOnlyItems` | src/components/DashboardLayout.tsx:48-49 | "Analytics" is shown iff admin; "Manage Complaints" iff support or admin |
| `DashboardLayout.CommonItems` | src/components/DashboardLayout.tsx:46-47 | Dashboard, My Complaints, AI Chat and Settings are shown to every role |
| `DashboardLayout.AdminSeesEverything` | src/components/DashboardLayout.tsx:45-52 | an admin sees the whole table in order |
| `Text.Trim` | src/pages/ComplaintDetail.tsx:107 | `trim()` yields the factor of the text left once the whitespace before and after it is dropped; the factor neither starts nor ends with whitespace |
| `Text.BlankIffAllWhitespace` | src/pages/ComplaintDetail.tsx:98 | a text trims to nothing exactly when it is empty or all whitespace |

## Left out

- The Gemini `fetch` and JSON parsing are not modelled. Their outcome is the parameter `GeminiOutcome`. The `fullPrompt` array that `callGemini` computes and never sends is not modelled either.
- `getGeminiApiKey`, `updateGeminiApiKey` and the effect that stores a hard-coded key are not modelled, because they are browser storage. The key is a parameter.
- Browser storage for authentication is modelled only as the stored `user` entry (`AuthProvider.storedUser`); JSON encoding is not modelled.
- Timers, promises and concurrency are not modelled. Each handler runs to completion when it is called, so overlapping `sendMessage` calls that read a stale `currentSession` are outside the model.
- `processVoiceInput` and voice capture are not modelled; they are a stub over `MediaRecorder`.
- `updateComplaintStatus` is not modelled: the management page calls it, but the complaints context defines no such operation.
- Toasts, navigation calls other than the gate's decision, and all rendering are left out, as are the pages and components that only render.
- `generateId` can return the same id twice. Here ids are fresh strings supplied by the caller, so collisions are not modelled.
- `uuidv4` uniqueness is not modelled; the fresh id is a parameter.
- Dates are integer milliseconds. `setDate` moves a date by whole days of 86,400,000 ms, so daylight-saving shifts are ignored, and `format(..., "PPpp")` is an abstract function parameter.
- Text.ToLower: lowercases only A-Z, as the model covers ASCII text only; Unicode case mapping is not modelled.
- ManageComplaints.SortRows: the contract states a sorted permutation but not stability. The implementation is a stable insertion sort, like `Array.prototype.sort`.
- ComplaintForm.Validate: lengths count Unicode scalar values, whereas zod's `.min` counts UTF-16 code units, so a title with characters outside the Basic Multilingual Plane may be rejected here and accepted by the source. Category and priority are the enumerations' values, as the select boxes offer, rather than arbitrary strings, so the casts at `ComplaintForm.tsx:80-81` are not modelled.
- ComplaintDetail.ComplaintDetailPage.SubmitComment and `ChangeStatus` require a loaded record: without one, the page renders only its not-found view and the handlers cannot be reached. `ChangeStatus` also requires `CanUpdateStatus`, because its select is rendered only then.
- The sidebar's open/closed toggle in the dashboard layout is UI state and is not modelled.
