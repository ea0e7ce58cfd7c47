# Jira ticket creator: a Dafny model

This project models the core of a small web application. A requester fills in
one form with their squad, their email and one or more technology entries.
Each entry has a technology, a solution code, a `+`-joined list of
environments, and technology-specific sizes.

The server turns each entry into one issue in a Jira tracker, then records the
created issue in a local table.

The model covers three source files, one Dafny module each. A fourth module,
`Wrappers`, holds the `Option` and `Result` types.

- `Jira` (`jira.dfy`, from `server/jira.ts`) builds one issue:
  - the summary `[technology] code - environment`;
  - the Jira-markup description;
  - the labels;
  - the priority, looked up from the environment;
  - the configuration guard;
  - the browse URL of the created issue.

  The description is a header, at most one specification section chosen by
  the technology, and a fixed acceptance checklist. The model builds it step
  by step, as the source does (`BuildDescription`), and proves it equal to a
  reference definition (`Description`). The HTTP call is the `Tracker` class.
  It logs every request and answers each one with a key or a failure of its
  own choosing.
- `Routers` (`routers.dfy`, from `server/routers.ts`) holds the two endpoints:
  - `create` files one request;
  - `createMultiple` files a batch in order. For each item it makes the tracker
    call, then the record write, and the first failure ends the batch with
    nothing rolled back.

  The input schema becomes preconditions. The local table is the
  `TicketStore` class. A write to it may fail at any time, and it always fails
  on a key that is already stored, so stored keys stay unique.
- `TicketFormPage` (`ticket_form.dfy`, from `client/src/pages/TicketForm.tsx`)
  models the form's state as a class with handlers. The handlers add an entry
  with a fresh id, remove one while keeping at least one, change one field,
  and toggle an environment. Submitting checks the entries in order and stops
  at the first failing check. The reset after a successful batch is modelled
  too.

Sources of nondeterminism become inputs or nondeterministic choices:

- The environment variables are a `JiraConfig` value.
- The tracker's answers and the store's failures are nondeterministic choices
  inside `Tracker.Post` and `TicketStore.Insert`.
- The schema's email-format check is a parameter `isEmail`.

## Model

| member | source | states |
|---|---|---|
| Jira.IntToDecimal | jira-ticket-creator-minimal/data/server/jira.ts:110-131 | a number interpolated into the description renders as at least one character, with a leading minus exactly when it is negative |
| Jira.NatToDecimal | jira-ticket-creator-minimal/data/server/jira.ts:110-131 | a non-negative number renders as decimal digits only, with no leading zero unless the number is 0 |
| Jira.NatToDecimalValue | jira-ticket-creator-minimal/data/server/jira.ts:110-131 | the digits rendered for a non-negative number, read back most significant first, give that number |
| Jira.IntToDecimalValue | jira-ticket-creator-minimal/data/server/jira.ts:110-131 | a non-negative number renders as exactly its digits, and a negative one as a minus followed by the digits of its magnitude |
| Jira.BuildSummary | jira-ticket-creator-minimal/data/server/jira.ts:90-92 | the summary opens with `[`, ends with the environment, and is six characters longer than technology, solution code and environment together |
| Jira.SummaryNamesTechnology | jira-ticket-creator-minimal/data/server/jira.ts:90-92 | the technology can be read back from the summary, between the `[` and the first `]`, whenever it contains no `]` |
| Jira.BuildLabels | jira-ticket-creator-minimal/data/server/jira.ts:148-151 | exactly three labels, in order: technology, environment, `AutoCreated`, with no deduplication |
| Jira.GetPriority | jira-ticket-creator-minimal/data/server/jira.ts:156-164 | the priority is always High, Medium or Low; it is the table's entry for an environment in the table, and Medium for every other string |
| Jira.PriorityLevels | jira-ticket-creator-minimal/data/server/jira.ts:156-164 | High exactly for PROD; Low exactly for DEV; Medium for everything else, including UAT, INT, composites such as `DEV+UAT`, and the empty string |
| Jira.BuildDescription | jira-ticket-creator-minimal/data/server/jira.ts:97-143 | appending the sections one by one under their guards gives the reference description, which begins with the general-information header and ends with the acceptance checklist |
| Jira.Description | jira-ticket-creator-minimal/data/server/jira.ts:97-143 | the reference description: the header, the sections whose guards hold, then the checklist. `BuildDescription` is proved equal to it, and `ShownSection` and the `...SectionIff` lemmas state what stands in its middle |
| Jira.ComputeRequested | jira-ticket-creator-minimal/data/server/jira.ts:110 | the compute section's guard: VM or Kubernetes with a truthy CPU and RAM. `ComputeSectionIff` proves the section appears exactly when it holds |
| Jira.DatabaseRequested | jira-ticket-creator-minimal/data/server/jira.ts:118 | the database section's guard: Database with a non-empty engine and a truthy disk size. `DatabaseSectionIff` proves the section appears exactly when it holds |
| Jira.StorageRequested | jira-ticket-creator-minimal/data/server/jira.ts:126 | the storage section's guard: Storage with a non-empty type and a truthy quota. `StorageSectionIff` proves the section appears exactly when it holds |
| Jira.AtMostOneSection | jira-ticket-creator-minimal/data/server/jira.ts:110-132 | the guards of the compute, database and storage sections exclude each other |
| Jira.ShownSection | jira-ticket-creator-minimal/data/server/jira.ts:109-132 | the text between the header and the checklist is the one section whose guard holds, or nothing |
| Jira.ComputeSectionIff | jira-ticket-creator-minimal/data/server/jira.ts:110-116 | the compute section stands between header and checklist exactly when the technology is VM or Kubernetes and both CPU and RAM are present and non-zero |
| Jira.DatabaseSectionIff | jira-ticket-creator-minimal/data/server/jira.ts:118-124 | the database section is shown exactly when the technology is Database with a non-empty engine and a non-zero disk size |
| Jira.StorageSectionIff | jira-ticket-creator-minimal/data/server/jira.ts:126-132 | the storage section is shown exactly when the technology is Storage with a non-empty storage type and a non-zero quota |
| Jira.NoSectionIff | jira-ticket-creator-minimal/data/server/jira.ts:109-132 | the header is followed directly by the checklist exactly when no section guard holds (Middleware, other technologies, incomplete requests) |
| Jira.PayloadAgrees | jira-ticket-creator-minimal/data/server/jira.ts:46-55 | in a payload, the summary and the first label name the same technology, and the priority is High exactly when the second label is PROD |
| Jira.PayloadFor | jira-ticket-creator-minimal/data/server/jira.ts:46-55 | the issue payload: the project key, the summary, the description, type Task, the priority and the labels. `PayloadAgrees` states how its parts agree, and `CreateJiraTicket` that it is exactly what is posted |
| Jira.ConfigPresent | jira-ticket-creator-minimal/data/server/jira.ts:38-40 | all four settings are present and non-empty. `CreateJiraTicket` throws "Jira configuration missing" before any request exactly when this fails |
| Jira.BrowseUrl | jira-ticket-creator-minimal/data/server/jira.ts:72 | the browse URL starts with `https://`, ends with the key, and is 16 characters longer than domain and key together |
| Jira.BrowseUrlDeterminesKey | jira-ticket-creator-minimal/data/server/jira.ts:72 | two keys on the same domain with the same browse URL are the same key |
| Jira.ResponseFor | jira-ticket-creator-minimal/data/server/jira.ts:72-84 | a created issue yields its key and browse URL; a failed call yields what it threw |
| Jira.Tracker.constructor | jira-ticket-creator-minimal/data/server/jira.ts:61-70 | a fresh tracker has received no request |
| Jira.Tracker.Post | jira-ticket-creator-minimal/data/server/jira.ts:61-70 | each post adds one request to the log and one answer to the log of answers |
| Jira.CreateJiraTicket | jira-ticket-creator-minimal/data/server/jira.ts:32-85 | with a setting missing, it throws "Jira configuration missing" before any request; otherwise it posts exactly one payload (project key, summary, description, type Task, priority, labels) and returns the tracker's answer as key and URL, or as the thrown value |
| Routers.TicketDataFor | jira-ticket-creator-minimal/data/server/routers.ts:100-112 | an item's ticket data carries the item's nine fields unchanged plus the batch's squad and email |
| Routers.ItemAccepted | jira-ticket-creator-minimal/data/server/routers.ts:82-90 | the schema rule for one batch item: technology, solution code and environment are non-empty strings, and the sizes are unchecked |
| Routers.BatchAccepted | jira-ticket-creator-minimal/data/server/routers.ts:77-93 | the batch schema: a non-empty squad, a well-formed email and at least one accepted item. It is `CreateMultiple`'s precondition, and `SentBatchAccepted` proves the form only sends such batches |
| Routers.SingleAccepted | jira-ticket-creator-minimal/data/server/routers.ts:26-38 | the single-ticket schema: the three item strings and the squad are non-empty and the email is well formed. It is `Create`'s precondition |
| Routers.TicketDataRoundTrip | jira-ticket-creator-minimal/data/server/routers.ts:100-112 | ticket data is rebuilt exactly from its item part, squad and email |
| Routers.RecordFor | jira-ticket-creator-minimal/data/server/routers.ts:116-131 | the stored record has the tracker's key and URL, every request field unchanged, and no creator |
| Routers.TicketStore.constructor | jira-ticket-creator-minimal/data/drizzle/schema.ts:33 | a fresh store is empty, and its keys are unique |
| Routers.TicketStore.Insert | jira-ticket-creator-minimal/data/drizzle/schema.ts:33 | a write either appends the record or records the failure and changes nothing else; it must fail on a key that is already stored; keys stay unique |
| Routers.InternalError | jira-ticket-creator-minimal/data/server/routers.ts:140-145 | any failure is reported as INTERNAL_SERVER_ERROR with the Error's message, or with the fallback text for a non-Error value |
| Routers.FileTicket | jira-ticket-creator-minimal/data/server/routers.ts:114-131 | one tracker call, then a record write only when the call returned a key; each failure comes back as the failure and stops what follows |
| Routers.Create | jira-ticket-creator-minimal/data/server/routers.ts:24-73 | `create` answers success with the tracker's key and URL after storing the record; a missing setting, a tracker failure or a store failure becomes an internal error with the single-ticket fallback |
| Routers.ProcessedKept | jira-ticket-creator-minimal/data/server/routers.ts:99-137 | items already sent, answered and stored stay so as the logs grow |
| Routers.ProcessedGrows | jira-ticket-creator-minimal/data/server/routers.ts:99-137 | sending item k, getting a key and storing its record extends the processed prefix from k to k + 1 items |
| Routers.AnswerKeysDistinct | jira-ticket-creator-minimal/data/server/routers.ts:116-139 | the keys a batch answers with are pairwise distinct, because each one is the key of a stored record |
| Routers.FileItem | jira-ticket-creator-minimal/data/server/routers.ts:100-137 | one item is sent, and on a created key its record is stored: success extends the processed prefix by that item and answers its key with the browse URL; failure leaves the prefix as it was and reports the tracker's error or the store's |
| Routers.FileBatch | jira-ticket-creator-minimal/data/server/routers.ts:97-139 | items go through in input order, each sent, answered and stored before the next is sent. On success the answer has one key and URL per item, in order. On the first failure, nothing of the answer is returned, earlier items stay created, and the error is the tracker's or the store's |
| Routers.CreateMultiple | jira-ticket-creator-minimal/data/server/routers.ts:75-147 | with a setting missing, the batch fails on its first item with "Jira configuration missing" and nothing changes; otherwise it behaves as the loop above, with failures wrapped as internal errors using the batch fallback |
| TicketFormPage.MaxId | jira-ticket-creator-minimal/data/client/src/pages/TicketForm.tsx:60 | the largest id is at least every id, and it is one of them (or 0 for an empty list) |
| TicketFormPage.NextId | jira-ticket-creator-minimal/data/client/src/pages/TicketForm.tsx:60 | the id of an added entry is at least 1 and differs from every existing id |
| TicketFormPage.WithoutIdMembers | jira-ticket-creator-minimal/data/client/src/pages/TicketForm.tsx:69 | an entry survives removal exactly when it was there and its id is not the removed one |
| TicketFormPage.WithoutId | jira-ticket-creator-minimal/data/client/src/pages/TicketForm.tsx:69 | the `filter` of removal, never longer than the list. `WithoutIdMembers`, `RemovingKeepsIdsUnique` and `RemovingCount` state what survives |
| TicketFormPage.RemovingKeepsIdsUnique | jira-ticket-creator-minimal/data/client/src/pages/TicketForm.tsx:67-73 | removing entries by id keeps the remaining ids unique |
| TicketFormPage.RemovingCount | jira-ticket-creator-minimal/data/client/src/pages/TicketForm.tsx:67-73 | with unique ids, removal drops exactly one entry when some entry has that id, and leaves the list unchanged otherwise |
| TicketFormPage.SetField | jira-ticket-creator-minimal/data/client/src/pages/TicketForm.tsx:78 | the named field gets the new value; the id and every other field keep theirs |
| TicketFormPage.ChangeField | jira-ticket-creator-minimal/data/client/src/pages/TicketForm.tsx:75-81 | length, order and ids are kept; entries with other ids are untouched; the matching entry changes in the named field only |
| TicketFormPage.ChangeKeepsIdsUnique | jira-ticket-creator-minimal/data/client/src/pages/TicketForm.tsx:75-81 | a field change keeps ids unique |
| TicketFormPage.ChangeToSameValue | jira-ticket-creator-minimal/data/client/src/pages/TicketForm.tsx:75-81 | setting a field to the value it already holds leaves the list as it was |
| TicketFormPage.SplitOnPlus | jira-ticket-creator-minimal/data/client/src/pages/TicketForm.tsx:87 | splitting at `+` gives at least one part, and no part contains `+` |
| TicketFormPage.JoinSplit | jira-ticket-creator-minimal/data/client/src/pages/TicketForm.tsx:87-92 | joining the parts of a split with `+` gives back the original string |
| TicketFormPage.SplitJoin | jira-ticket-creator-minimal/data/client/src/pages/TicketForm.tsx:87-92 | splitting the join of a non-empty list of parts without `+` gives back the list |
| TicketFormPage.JoinWithPlus | jira-ticket-creator-minimal/data/client/src/pages/TicketForm.tsx:92 | JavaScript's `join("+")`. `JoinSplit` and `SplitJoin` prove it inverse to `SplitOnPlus` |
| TicketFormPage.SelectedEnvironments | jira-ticket-creator-minimal/data/client/src/pages/TicketForm.tsx:87 | the empty string selects no environment; any other string selects the parts that join back to it |
| TicketFormPage.RemoveAll | jira-ticket-creator-minimal/data/client/src/pages/TicketForm.tsx:89 | a value survives exactly when it was present and differs from the removed environment |
| TicketFormPage.Toggled | jira-ticket-creator-minimal/data/client/src/pages/TicketForm.tsx:88-90 | a click flips whether the clicked environment is selected and keeps every other environment as it was |
| TicketFormPage.ToggleEnvironment | jira-ticket-creator-minimal/data/client/src/pages/TicketForm.tsx:87-92 | the environment string after a click. `ToggleRemoves`, `ToggleAdds` and `ToggleTwiceRestores` state its effect on the selection |
| TicketFormPage.ToggleRemoves | jira-ticket-creator-minimal/data/client/src/pages/TicketForm.tsx:83-93 | clicking a selected environment removes every occurrence of it and keeps the others in order |
| TicketFormPage.ToggleAdds | jira-ticket-creator-minimal/data/client/src/pages/TicketForm.tsx:83-93 | clicking an unselected environment appends it at the end |
| TicketFormPage.ToggleTwiceRestores | jira-ticket-creator-minimal/data/client/src/pages/TicketForm.tsx:83-93 | clicking an unselected environment without `+` twice restores the original string |
| TicketFormPage.NoProblemIff | jira-ticket-creator-minimal/data/client/src/pages/TicketForm.tsx:109-132 | validation finds no problem exactly when every entry passes every check |
| TicketFormPage.EntryProblem | jira-ticket-creator-minimal/data/client/src/pages/TicketForm.tsx:110-131 | an entry has no problem exactly when its technology, solution code and environment are filled and the sizes its category needs are truthy (CPU and RAM for VM and Kubernetes, engine and disk size for Database, type and quota for Storage) |
| TicketFormPage.FirstProblem | jira-ticket-creator-minimal/data/client/src/pages/TicketForm.tsx:109-132 | the first failing check, entries taken in order. `FirstFailing` and `NoProblemIff` state which entry it comes from |
| TicketFormPage.FirstFailing | jira-ticket-creator-minimal/data/client/src/pages/TicketForm.tsx:109-132 | a reported problem is the message of an entry whose predecessors all passed |
| TicketFormPage.StripIds | jira-ticket-creator-minimal/data/client/src/pages/TicketForm.tsx:137-147 | the sent list has the same length and order, and each item gives back its entry when its id is restored |
| TicketFormPage.EntryRoundTrip | jira-ticket-creator-minimal/data/client/src/pages/TicketForm.tsx:137-147 | sending an entry loses only its id |
| TicketFormPage.ValidateSubmission | jira-ticket-creator-minimal/data/client/src/pages/TicketForm.tsx:99-148 | the checks made one entry at a time reach the reference outcome: the squad/email message, the no-technology message, the first failing entry's message, or the batch without ids |
| TicketFormPage.Validate | jira-ticket-creator-minimal/data/client/src/pages/TicketForm.tsx:99-148 | a sent batch carries the form's squad and email and exactly the entries without their ids, in order, and only once every entry has passed every check |
| TicketFormPage.ValidateOutcome | jira-ticket-creator-minimal/data/client/src/pages/TicketForm.tsx:99-148 | the form is sent exactly when squad and email are filled, there is an entry and every entry passes; otherwise the message is the squad/email one, the missing-technology one, or that of the first failing entry, all entries before it having passed |
| TicketFormPage.SentBatchAccepted | jira-ticket-creator-minimal/data/client/src/pages/TicketForm.tsx:134-148 | a batch the form sends meets the server's input schema whenever the email is well formed |
| TicketFormPage.SentEntriesGetTheirSection | jira-ticket-creator-minimal/data/client/src/pages/TicketForm.tsx:115-131 | every sent VM, Kubernetes, Database or Storage entry meets the guard of its specification section in the description |
| TicketFormPage.TicketForm.constructor | jira-ticket-creator-minimal/data/client/src/pages/TicketForm.tsx:35-42 | the form starts with an empty squad and email, one blank entry with id 1, and nothing shown |
| TicketFormPage.TicketForm.SetSquad | jira-ticket-creator-minimal/data/client/src/pages/TicketForm.tsx:187 | typing in the squad field sets the squad only |
| TicketFormPage.TicketForm.SetEmail | jira-ticket-creator-minimal/data/client/src/pages/TicketForm.tsx:201 | typing in the email field sets the email only |
| TicketFormPage.TicketForm.AddTechnology | jira-ticket-creator-minimal/data/client/src/pages/TicketForm.tsx:59-65 | a blank entry with a fresh id is appended; existing entries are untouched; the list stays non-empty with unique ids |
| TicketFormPage.TicketForm.RemoveTechnology | jira-ticket-creator-minimal/data/client/src/pages/TicketForm.tsx:67-73 | with more than one entry, the entries with that id are dropped; with one, nothing changes; the list never becomes empty |
| TicketFormPage.TicketForm.TechChange | jira-ticket-creator-minimal/data/client/src/pages/TicketForm.tsx:75-81 | the list becomes its field change, and ids stay unique |
| TicketFormPage.TicketForm.Find | jira-ticket-creator-minimal/data/client/src/pages/TicketForm.tsx:84 | an entry is found exactly when one has the id, and what is found is the first entry with it, as `Array.prototype.find` returns |
| TicketFormPage.TicketForm.EnvironmentToggle | jira-ticket-creator-minimal/data/client/src/pages/TicketForm.tsx:83-93 | with no entry of that id nothing happens; otherwise the environment of the entries with that id becomes the toggled string of the first one |
| TicketFormPage.TicketForm.HandleSubmit | jira-ticket-creator-minimal/data/client/src/pages/TicketForm.tsx:95-149 | shows the validation message and sends nothing, or clears the message and sends the batch; the form's content is unchanged |
| TicketFormPage.TicketForm.OnSuccess | jira-ticket-creator-minimal/data/client/src/pages/TicketForm.tsx:45-51 | shows the results, clears the error, and resets squad, email and entries to the initial form |
| TicketFormPage.TicketForm.OnError | jira-ticket-creator-minimal/data/client/src/pages/TicketForm.tsx:53-56 | shows the server's message, or the generic message when it is empty |

## Left out

- The HTTP request to the tracker, its Basic-auth header and the rewording of tracker errors into `Jira API Error: status - text` (server/jira.ts:57-84). `Tracker.Post` answers with any key or any thrown value, so the error text a failed call carries is not modelled.
- Logging to the console, in both files on the server.
- The environment variables: `JiraConfig` is passed in explicitly.
- Jira.IntToDecimal: numbers are integers, so JavaScript's rendering of fractional numbers, NaN and exponents is not modelled. The digits are tied to the value by `Jira.IntToDecimalValue`, not by this function's own contract.
- Jira.GetPriority: the lookup covers the table's four own keys only. Names inherited from JavaScript's object prototype are not modelled.
- The relational database: `createJiraTicketDB` and the `jira_tickets` table are not part of this model beyond the unique key on `jiraKey` (drizzle/schema.ts:33). The store's own id, timestamps and column widths are left out.
- The input schema's error messages, and the email format itself, which is the `isEmail` parameter. Input that fails the schema never reaches the procedures, so the schema rules are preconditions.
- Routers.CreateMultiple: its own contract does not state that the answered keys are distinct. That fact is the separate lemma `Routers.AnswerKeysDistinct`, which keeps the loop's proof small.
- Concurrent requests: each endpoint is modelled as one sequential run.
- Metrics (server/telemetry.ts), the authentication router, and the test files.
- The page's rendering, toasts, loading state, and the list of custom technologies.
- The mutation call: `HandleSubmit` returns the batch it would send, and the caller then invokes `OnSuccess` or `OnError`.
- Parsing numbers typed into the form: numeric fields are optional integers. Entry ids are the natural numbers the form writes out as strings.
- TicketFormPage.TicketForm.TechChange: requires the value to have the kind the field holds (`Fits`). The source passes any value, and the form's inputs always pass that kind.
- TicketFormPage.ToggleRemoves: stated for environment strings with no empty part. The form only builds such strings, and a string like `+DEV` would lose its empty part on rejoining.
- TicketFormPage.ToggleAdds: stated for an environment without `+`, and not for adding the empty string to an empty selection. Both come from the fixed list of environment buttons.
