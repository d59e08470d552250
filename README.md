# Help-desk ticketing core, modelled in Dafny

This project models the core of a help-desk application.

- **The web back end.** Requesters submit tickets, and staff take tickets from the unassigned queue.
  - A requester's submission is classified into a department and a priority.
  - It is routed to the least-loaded staff member of that department.
  - It is inserted as `in_progress`, and that staff member's ticket counter is bumped.
  - A staff member claims an unassigned ticket with a compare-and-set update, so a ticket is claimed at most once.
- **The Python classifier side**:
  - the `TicketClassifier` that loads, trains and predicts;
  - the `/classify` endpoint in front of it;
  - the stand-alone training script;
  - the Gemini troubleshooting assistant with its canned fallback;
  - the data-preparation and split logic of the two experiment scripts.

The modules follow the source files:

| module | file | form |
|---|---|---|
| `Store` | the Postgres tables the routes use | a `Database` class with `seq` tables; each store primitive is one atomic method |
| `DbUsers`, `DbStaff` | `lib/dbUsers.ts`, `lib/dbStaff.ts` | methods that run select → insert → re-select on the `Database` |
| `TicketsRoute` | `app/api/tickets/route.ts` | GET and POST as methods on the `Database` |
| `UnassignedRoute` | `app/api/staff/unassigned/route.ts` | GET as a function; the claim POST as a method |
| `StaffTicketsRoute` | `app/api/staff/tickets/route.ts` | a function |
| `Classifier` | `ticket_classifier.py` | the `TicketClassifier` class (five component fields) plus pure functions for loading the data, preprocessing and choosing the split |
| `ClassifierService` | `python/main.py` | `classify` as a function |
| `TrainModels` | `train_models.py` | label normalisation as functions; `load_and_prepare_data` as a method |
| `GeminiAssistant` | `gemini_assistant.py` | functions over an immutable assistant value |
| `FilterScript` | `Filter.py`, lines 79-158 | methods that reassign the frame |
| `KaggleLoader` | `python/kaggle_data_loader.py`, lines 54-188 | methods with the column-search loop |

Shared vocabulary sits in small modules:

- `Wrappers`:
  - `Option`, `Result`, and the HTTP `Response`;
  - `Given`, which is JavaScript/Python truthiness of an optional string.
- `Seqs`:
  - an order-preserving `Filter` and `Map`;
  - a stable `SortBy`, which models `Array.prototype.sort` and `order by`.
- **Row order in the store.** Postgres promises no order for the rows of a select without `order by`, nor among rows that tie on the `order by` key. This includes the staff select at `app/api/tickets/route.ts:94-96`. The model fixes both as table order. `TicketsRoute.SelectAssignee` relies on that choice to break ties between equally loaded staff: it takes the first in table order.
- `PyText`:
  - `str.strip()` over the characters `str.isspace()` accepts;
  - ASCII `str.lower()`, `in` on strings, and `str.join`.
- `Frames`:
  - a pandas frame as named columns plus rows of optional string cells, with `None` for NaN;
  - `dropna`, the blank-text filter, column assignment, `nunique() > 1`, and the split choices.

Anything external is a parameter of the operation that uses it:

- database errors;
- the classifier's answer;
- the Gemini reply;
- the prediction numerics;
- which files exist;
- whether a stratified split raises `ValueError`;
- the clock.

Two behaviours of `POST /api/tickets` follow the route's code, which may not be what a reader of the product's description expects:

- **A failed classification.** No ticket is created when classification fails. The route answers 500 "Classification failed" (`app/api/tickets/route.ts:86-91`), and so does `TicketsRoute.Post`.
- **The initial status.** The route inserts every ticket as `in_progress` (`app/api/tickets/route.ts:122`), not as a to-do ticket.

## Model

| member | source | states |
|---|---|---|
| Store.IdFor | lib/dbUsers.ts:12-16 | the database's generated ids: the n-th id is longer than every earlier one, so a new id is fresh and non-empty |
| Store.UserByEmail | lib/dbUsers.ts:4-10 | the select by email gives a row holding that email, or `None` exactly when no row holds it |
| Store.StaffByEmail | lib/dbStaff.ts:6-11 | the same for the staff table |
| Store.UserByEmailFinds | lib/dbUsers.ts:18-25 | with unique emails, the select by a stored row's email returns that very row (what the re-select after a conflict relies on) |
| Store.StaffByEmailFinds | lib/dbStaff.ts:20-26 | the same for staff |
| Store.Incremented | app/api/tickets/route.ts:137-139 | `increment_ticket_count`: every other row is unchanged; the row with the id differs only in its counter, which is set and one above its old load (`coalesce(ticket_assigned, 0) + 1`) |
| Store.IncrementedTotal | app/api/tickets/route.ts:137-139 | a bump on a present, unique id raises the total load of all staff by exactly one |
| Store.IncrementedAbsent | app/api/tickets/route.ts:137-139 | a bump on an id no row holds changes nothing |
| Store.IncrementedTimesAdds | app/api/tickets/route.ts:137-139 | no lost update: n atomic bumps add n to the chosen row's load and leave every other field and row as it was |
| Store.IncrementedKeepsKeys | app/api/tickets/route.ts:137-139 | a bump keeps staff ids and emails unique and every id one the store handed out |
| Store.Claimed | app/api/staff/unassigned/route.ts:26-32 | the conditional update keeps the table's rows in place (same number of rows); `UnassignedRoute.ClaimedEffect` states what each row becomes |
| Store.ClaimedKeepsIds | app/api/staff/unassigned/route.ts:26-32 | the claim update keeps ticket ids unique and every id one the store handed out |
| Store.QueryExactly | app/api/tickets/route.ts:31-35 | a filtered query ordered by `created_at desc` returns every matching row as often as it is stored, nothing else, newest first |
| Store.Database.InsertAppUser | lib/dbUsers.ts:12-16 | the insert is refused with code 23505 when the email exists; otherwise exactly the row {new id, email, name} is appended; the other tables are untouched and the constraints are kept |
| Store.Database.InsertStaff | lib/dbStaff.ts:14-18 | the same for staff, with the department and a null counter |
| Store.Database.InsertTicket | app/api/tickets/route.ts:116-131 | appends exactly the described ticket with a fresh id and `created_at = updated_at = now` |
| Store.Database.IncrementTicketCount | app/api/tickets/route.ts:137-139 | the staff table becomes `Incremented`; nothing else changes |
| Store.Database.ClaimUpdate | app/api/staff/unassigned/route.ts:26-32 | reports a match exactly when some row has the id and a null `staff_id`; the ticket table becomes `Claimed` |
| DbUsers.GetOrCreateAppUser | lib/dbUsers.ts:3-29 | a returned id is the id of the row now holding the email; a select error is thrown with nothing written; an existing row is returned without an insert; a new email gets exactly one row; after losing the insert race, the concurrent row's id is returned (or the re-select error is thrown); other insert errors are thrown; at most one row is added |
| DbStaff.GetOrCreateStaff | lib/dbStaff.ts:5-31 | the same on the staff table, with the department; a concurrent insert carries its own department |
| TicketsRoute.SelectAssigneeIsFirstLeastLoaded | app/api/tickets/route.ts:104-113 | routing picks nobody iff nobody is in the department; otherwise it picks the first staff member, in table order, with the least load (null counted as 0) |
| TicketsRoute.AssigneeInDepartment | app/api/tickets/route.ts:104-113 | the chosen staff member is in the ticket's department and has no more load than any colleague there |
| TicketsRoute.Get | app/api/tickets/route.ts:15-49 | 401 without a session email; 500 on a store error; OK whenever there is an email and the store raises nothing; an OK answer is exactly the requester's tickets (resolved by email), newest first |
| TicketsRoute.Post | app/api/tickets/route.ts:52-149 | 401 and 400 leave the store unchanged; a failed classification, staff select or insert gives an error; OK whenever the fields are given, the store raises nothing and the classifier answers; any failure leaves the tickets and counters as they were; success appends one `in_progress` ticket carrying the requester, the classification and the least-loaded staff member of the department, and bumps exactly that member's counter unless the RPC fails |
| TicketsRoute.Submit | app/api/tickets/route.ts:93-140 | a failed staff select answers 500 "Failed to fetch staff list" and a failed insert 500 with the error's message, both leaving tickets and counters as they were; otherwise exactly one `in_progress` ticket is appended, carrying the requester, the classification and the routed staff member, and only that member's counter is bumped unless the RPC fails; the users table is untouched |
| TicketsRoute.ResolvedIdIssued | app/api/tickets/route.ts:72-82 | the id the users table holds for an email is never empty, so the "User could not be resolved" and "User not found" branches are never taken |
| UnassignedRoute.Get | app/api/staff/unassigned/route.ts:4-13 | 500 on a store error; otherwise exactly the tickets with no staff member, newest first |
| UnassignedRoute.Post | app/api/staff/unassigned/route.ts:15-41 | 400 for invalid JSON or a missing id; 500 on an update error; otherwise the table becomes `Claimed`, the answer is OK iff the ticket was still unassigned, and it is 409 otherwise |
| UnassignedRoute.ClaimedEffect | app/api/staff/unassigned/route.ts:26-32 | a claim changes only the named ticket, and only while it is unassigned (its staff and `updated_at`); with nothing claimable it changes nothing |
| UnassignedRoute.SecondClaimLoses | app/api/staff/unassigned/route.ts:26-35 | after one claim nothing is claimable; a second claim of the same ticket changes nothing, and the ticket keeps its first claimer |
| StaffTicketsRoute.Get | app/api/staff/tickets/route.ts:9-29 | 400 without a non-empty `staff_id`; 500 on a store error; otherwise exactly that member's tickets, newest first |
| Frames.DropNa | ticket_classifier.py:148 | `dropna(subset)` raises `KeyError` iff a subset column is absent; otherwise it keeps the columns, and the rows are exactly those complete on the subset, in their order and multiplicity |
| Frames.DropNaCounts | ticket_classifier.py:148 | each complete row is kept as many times as it occurs, each incomplete one not at all |
| Frames.DropBlank | ticket_classifier.py:149 | keeps exactly the rows whose text is NaN or has a non-whitespace character, in their order and multiplicity |
| Frames.DropBlankCounts | ticket_classifier.py:149 | each such row is kept as many times as it occurs, each blank one not at all |
| Frames.DropNaThenBlank | ticket_classifier.py:148-149 | `dropna` then the blank-text filter is one order-preserving filter by any test that agrees with both on every row |
| Frames.KeywordColumns | ticket_classifier.py:140-141 | exactly the columns whose lower-cased name contains a keyword; its head is the first such column |
| Frames.TwoDistinct | ticket_classifier.py:178 | `nunique() > 1` holds iff two rows carry different values |
| PyText.Strip | python/main.py:45 | `str.strip()` leaves no whitespace at either end; the result is empty iff the input is all whitespace |
| PyText.StripTrims | python/main.py:45 | `str.strip()` removes only whitespace, and only from the two ends: the result is a slice of the input with whitespace on both sides of it |
| PyText.TrimmedInside | python/main.py:45 | stripping the left, then the right, leaves the slice of the input between the two whitespace runs |
| PyText.Lower | python/main.py:55-56 | the result has no capital letters and the same length; a character is changed iff it was a capital |
| Classifier.PresentPrefix | ticket_classifier.py:33-44 | the loads stop at the first missing file: every file before it loaded |
| Classifier.LoadedFrom | ticket_classifier.py:35-39 | the components as loaded, one per file, in load order |
| Classifier.AllPresentLoadsAll | ticket_classifier.py:33-41 | a directory holding every model file loads all five |
| Classifier.TrainingData | ticket_classifier.py:103-129 | the Downloads CSV if it reads; else the local CSV if it reads; else the built-in sample |
| Classifier.TextRule | ticket_classifier.py:133-145 | title+body, else description, else an existing `text` column, else the first keyword column; none exactly when no such column exists (both directions) |
| Classifier.Preprocess | ticket_classifier.py:131-152 | fails iff there is no text source or no category/urgency column; on success every row has non-blank text and both labels, and the rows are the input rows with their text built, filtered to the usable ones, in order and with repeats |
| Classifier.CleanedRows | ticket_classifier.py:147-149 | the two cleaning steps are one order-preserving filter: the rows with their text built, filtered to the usable ones |
| Classifier.UsableIsCleaned | ticket_classifier.py:148-149 | a row is usable iff it survives both `dropna` and the blank-text filter |
| Classifier.KeptTextRows | ticket_classifier.py:143-149 | a row is kept iff it is some input row with its text built and it is usable |
| Classifier.LabelledColumns | ticket_classifier.py:148 | the `dropna` of `train` raises exactly when category or urgency is missing |
| Classifier.LabelledComplete | ticket_classifier.py:148 | a row survives `dropna` iff text, category and urgency are all present |
| Classifier.ChooseSplit | ticket_classifier.py:173-191 | fewer than two rows give the whole frame as both sets; stratifying on both labels only with at least four rows, both labels diverse and no `ValueError`; otherwise an unstratified split |
| Classifier.TicketClassifier.constructor | ticket_classifier.py:18-29 | starts empty and loads the longest present prefix of the five files; ready iff the directory and every file exist |
| Classifier.TicketClassifier.LoadModels | ticket_classifier.py:31-46 | loads the files in order up to the first missing one, leaving the rest as they were; true iff all load |
| Classifier.TicketClassifier.Train | ticket_classifier.py:154-234 | preprocessing errors propagate and leave the components unchanged; otherwise fitting as `Fit` states; success means ready with no component whose fit raised |
| Classifier.TicketClassifier.Fit | ticket_classifier.py:164-228 | both encoders fitted, then the vectorizer and the two classifiers in turn; a raising fit leaves the earlier ones fitted, the failing one stored but unfitted and the later ones as they were; a raising classification report leaves all fitted but still fails; success returns the chosen split and leaves the classifier ready with nothing unfitted |
| Classifier.TicketClassifier.Predict | ticket_classifier.py:236-268 | fails iff not ready or some component is unfitted: "Models not trained. Call train() first." when not ready, `NotFittedError` when ready with an unfitted component; otherwise the model's prediction |
| Classifier.TicketClassifier.FittedPredicts | ticket_classifier.py:154-268 | a `train` whose every step succeeded leaves a classifier that predicts |
| Classifier.TicketClassifier.FailedFitCannotPredict | ticket_classifier.py:193-215 | a fit that raised leaves a classifier that cannot predict, even if the components it kept look ready |
| Classifier.TicketClassifier.FailedReportStillPredicts | ticket_classifier.py:217-228 | a classification report that raises makes `train` fail, yet the classifier predicts |
| ClassifierService.RequestText | python/main.py:45 | the joined text is empty iff title and message are both whitespace only, and it has no surrounding whitespace |
| ClassifierService.Classify | python/main.py:39-62 | 401 iff a key is set and the header differs; "other"/"medium" with zero confidences for a blank request; otherwise OK iff the classifier is ready and has no unfitted component (500 otherwise); labels contain no capitals, keep the prediction's lengths, and pass its confidences through |
| ClassifierService.LowerLabelsPassThrough | python/main.py:54-62 | labels the model already gives in lower case reach the caller unchanged |
| ClassifierService.Startup | python/main.py:29-33 | the service is up only with a ready classifier with no unfitted component; a directory with every model file starts up with all five loaded |
| TrainModels.NormalizeUrgency | train_models.py:44-51 | the result is low, medium or high; low iff "Low"; high iff "High" or "Critical"; everything else, NaN included, becomes medium |
| TrainModels.NormalizeCategory | train_models.py:53-60 | the result is a department; it is not "other" iff the value is one of the four named departments, which is then kept as is |
| TrainModels.CategoryIdempotent | train_models.py:53-60 | a normalised category normalises to itself |
| TrainModels.UrgencyNotIdempotent | train_models.py:44-51 | the urgency table is keyed on capitalised names, so its own output maps to "medium" |
| TrainModels.LoadAndPrepareData | train_models.py:22-70 | `None` iff the CSV is missing or lacks title, body, category or urgency; otherwise every row has non-blank text and normalised labels, and the rows are the kept CSV rows, prepared, in CSV order and with repeats |
| TrainModels.LabelsRequired | train_models.py:41 | the `dropna` raises exactly when category or urgency is missing |
| TrainModels.PreparedRows | train_models.py:38-60 | cleaning then normalising gives the prepared forms of the kept rows, in order |
| TrainModels.PreparedInOrder | train_models.py:38-60 | mapping the combined text over the kept rows and then normalising is mapping the whole preparation over them |
| TrainModels.CleanedKept | train_models.py:38-42 | after cleaning, every row has non-blank text, and the rows are the kept rows with their combined text, in order |
| TrainModels.CleanedInOrder | train_models.py:38-42 | the combined text, `dropna` and the blank filter are one filter by `Kept` followed by one map, in order |
| TrainModels.CleanedMember | train_models.py:38-42 | the same for one row |
| TrainModels.KeptMeans | train_models.py:41-42 | a row survives cleaning iff both labels are present and the stripped title+body is non-empty |
| TrainModels.NormalizedRows | train_models.py:44-60 | after the two mappings every row is clean, and the rows are the cleaned rows normalised, position by position |
| TrainModels.NormalizedInOrder | train_models.py:44-60 | the two label mappings normalise the cleaned rows position by position |
| TrainModels.NormalizedClean | train_models.py:44-60 | a row with non-blank text is clean once both labels are normalised |
| TrainModels.LabelsComplete | train_models.py:41 | the `dropna` keeps a row iff text, category and urgency are present |
| TrainModels.StripBlankMeans | train_models.py:38-42 | a stripped text is blank iff it is empty |
| TrainModels.ChooseSplit | train_models.py:85-96 | at least four rows give a split stratified on both labels, or an unstratified one when that raises; fewer rows are used as both sets |
| TrainModels.AsWrittenNotLoadable | train_models.py:150-154 | with the names as written, a classifier started afterwards loads the vectorizer, then fails on `type_clf_lr.joblib` and is not ready |
| TrainModels.SavedFiles | train_models.py:150-154 | the corrected list holds five names and includes every file the classifier loads |
| TrainModels.SavedFilesLoad | train_models.py:150-154 | after the corrected save, a classifier in the same directory loads all five components |
| GeminiAssistant.TableKey | gemini_assistant.py:181 | the lookup lands on the entry of the type iff the type is one of the five known ones, and on "other" otherwise |
| GeminiAssistant.SystemPrompt | gemini_assistant.py:31-120 | the prompt of a known type, or the "other" prompt for any other type |
| GeminiAssistant.GuidanceFor | gemini_assistant.py:124-179 | every fallback entry has four steps |
| GeminiAssistant.FallbackResponse | gemini_assistant.py:122-190 | a fallback answer labelled with the caller's own type, with the note, and with the analysis, steps and escalation of the looked-up entry |
| GeminiAssistant.UnknownTypeGetsOther | gemini_assistant.py:181-190 | an unknown type gets the "other" guidance under its own name |
| GeminiAssistant.NewAssistant | gemini_assistant.py:12-29 | a client exists iff the API key is set and connecting succeeds; it is `gemini-pro` |
| GeminiAssistant.IsReady | gemini_assistant.py:228-230 | ready iff a client exists |
| GeminiAssistant.GetAssistance | gemini_assistant.py:192-226 | echoes the type; the answer is AI-generated iff a client exists and the call returns non-empty text, and it is then the stripped text from `gemini-pro`; every other case is exactly the fallback |
| GeminiAssistant.NotReadyFallsBack | gemini_assistant.py:195-197 | without a client the answer is the fallback, whatever Gemini would say |
| GeminiAssistant.BlankReplyPassedOn | gemini_assistant.py:213-219 | a whitespace-only reply is non-empty, so it is passed on, and the caller gets an empty `response` |
| FilterScript.ScriptTextRule | Filter.py:79-92 | title+body, else description, else `text` with NaN filled, else the first keyword column; none exactly when no such column exists |
| FilterScript.Preferred | Filter.py:146-155 | the label columns to stratify on: both iff at least four rows and both diverse, else type, else urgency; none with fewer than four rows or no diverse column |
| FilterScript.PrepareAndSplit | Filter.py:79-158 | the sample when the CSV is missing and the empty frame on any other error; otherwise the rows with their text built, filtered to the usable ones, in order; no split iff the frame is empty; the whole frame for one row; the preferred stratification unless it raises, in which case an unstratified split |
| FilterScript.ChooseSplit | Filter.py:125-158 | no split iff the frame is empty; the whole frame for one row; a split stratified on the preferred labels unless none is preferred or it raises, in which case an unstratified one |
| FilterScript.Prepare | Filter.py:79-98 | the empty frame iff the frame cannot be prepared; otherwise the rows with their text built, filtered to the usable ones, in order and with repeats |
| FilterScript.SameRowsAsClassifier | Filter.py:79-98 | the script and `TicketClassifier` fail on the same frames and keep the same sequence of rows |
| FilterScript.FilledTextSameWhenUsable | Filter.py:84-85 | filling the NaNs of `text` changes no row that keeps non-blank text |
| KaggleLoader.Candidates | python/kaggle_data_loader.py:68-87 | each column-search loop collects exactly the keyword-matching columns, in column order |
| KaggleLoader.FilledCells | python/kaggle_data_loader.py:96 | the text columns' cells with NaN read as '' |
| KaggleLoader.TextIsJoin | python/kaggle_data_loader.py:93-101 | the three text branches are one rule, the space-joined text columns, which contains each column's text |
| KaggleLoader.Load | python/kaggle_data_loader.py:54-145 | the sample when no dataset is available; the empty frame when reading fails; otherwise the standard columns, and the standardised rows with some non-whitespace text, in order and with repeats |
| KaggleLoader.Standardize | python/kaggle_data_loader.py:67-119 | the three standard columns exist, and the rows are the standardised rows filtered to those whose text is not blank, in order |
| KaggleLoader.AssignText | python/kaggle_data_loader.py:93-101 | sets `text` of every row (joined columns, one column, or ''), and nothing else |
| KaggleLoader.AssignCategory | python/kaggle_data_loader.py:104-108 | sets `category` from the first category column, or to 'general', and nothing else |
| KaggleLoader.AssignUrgency | python/kaggle_data_loader.py:111-115 | sets `urgency` from the first urgency column, or to 'medium', and nothing else |
| KaggleLoader.StandardizedRows | python/kaggle_data_loader.py:93-115 | the three assignments give each row its standardised form, position by position |
| KaggleLoader.KeptRows | python/kaggle_data_loader.py:118-119 | dropping NaN texts removes nothing, and dropping blank texts keeps the rows with some text, in order |
| KaggleLoader.KeptInOrder | python/kaggle_data_loader.py:118-119 | the two drops are one order-preserving filter of the standardised rows by non-blank text |
| KaggleLoader.HasTextMeans | python/kaggle_data_loader.py:118-119 | a row has non-blank text iff it passes both `dropna(subset=["text"])` and the blank filter |
| KaggleLoader.KeptRow | python/kaggle_data_loader.py:118-119 | the same for one row |
| KaggleLoader.TextKept | python/kaggle_data_loader.py:118-119 | after `dropna` and the blank filter on `text`, a row is kept iff it was present and its text is non-NaN and not all whitespace |
| KaggleLoader.KeptAt | python/kaggle_data_loader.py:118-119 | a kept row is the standardised form of some input row, and its text is not blank |
| KaggleLoader.ChooseSplit | python/kaggle_data_loader.py:148-188 | no split for an empty frame; the whole frame for one row; stratified on both labels when possible and no raise; stratified on type as the fallback or when only type is diverse; a crash when that raises; otherwise unstratified; never stratified on urgency alone |

## Left out

- **Concurrency.** Each store primitive (select, insert, the counter RPC, the conditional update) is one atomic step, as the database provides it. The only interleaving modelled is one concurrent insert of the same email inside get-or-create.
- **The `increment_ticket_count` procedure.** Its body is not part of this model; it is taken to be an atomic `coalesce(ticket_assigned, 0) + 1` on the row with the id.
- **Column projections of the selects.** Selects such as `select("id, title, ...")` return whole rows here.
- **Remote and foreign calls.** Supabase, NextAuth, the classifier HTTP client `lib/classifier.ts`, Gemini, joblib, scikit-learn and the Kaggle download are not modelled. Their outcomes (errors, answers, files present, a raising split) are parameters.
- **Prediction numerics.** TF-IDF, logistic regression and the `predict_proba` confidences are a `Model` parameter. The probability dictionaries `predict` also returns are not modelled.
- **Saving and metadata.** `_save_models`, and the metadata JSON and evaluation reports of `train_models.py`, are left out as I/O.
- **The system prompt texts of `gemini_assistant.py`.** A prompt is named by its topic. The fallback texts are modelled word for word.
- **`estimated_minutes`.** `python/main.py:23-27` returns no estimate, while `lib/classifier.ts:1` expects one. The route passes whatever the classifier answers as an `Option<int>`.
- **Cells.** Frame cells are strings or NaN. Numeric columns and `astype(str)` on non-string cells are not modelled.
- **FastAPI and Next.js responses.** FastAPI's request validation (422) and the exact body of an unhandled exception are not modelled; `ClassifierService.Classify` answers 500 "Internal Server Error". Route bodies are modelled by status and message only.
- **Authentication.** The session and the identity plumbing behind it are a `email: Option<string>` parameter.
- **Label-encoding errors.** In `Filter.py:130-133` and `python/kaggle_data_loader.py:153-156`, the labels are encoded before the split. A `LabelEncoder` error on mixed-type labels is not modelled.
- **A stratification error nobody catches.** A `ValueError` escaping the Kaggle loader's type-only split is the outcome `Crashed`.
- **The startup crash.** In `python/main.py:30-33`, a training error at import time stops the service; `ClassifierService.Startup` reports it as `up == false`.
- PyText.Lower: lower-cases ASCII letters only; Python's `str.lower()` also folds non-ASCII letters.
- ClassifierService.Classify: states that labels contain no capitals and keep the prediction's lengths, rather than equality with `str.lower()`; equality for lower-case labels is `ClassifierService.LowerLabelsPassThrough`.
- TicketsRoute.Post: states the status and message only for 401 and 400; the later failure paths are stated as failures here, and the staff-select and insert messages are stated on `TicketsRoute.Submit`.
- TicketsRoute.Get: the 404 "User not found" branch is modelled but never taken, because the store never hands out an empty id.
- Store.Claimed: its own contract states only that the rows stay in place; the row-by-row effect is `UnassignedRoute.ClaimedEffect`.

## Findings

| source | as written | input that shows it | evidently intended | confidence | as-written member | corrected member |
|---|---|---|---|---|---|---|
| train_models.py:150-154 | saves the classifiers as `models/type_classifier.joblib` and `models/urgency_classifier.joblib` | a `models` directory written by this script alone: `TicketClassifier` (ticket_classifier.py:35-39) loads the vectorizer, then fails on `models/type_clf_lr.joblib` and is not ready, so the service retrains | save under the names the classifier loads, `type_clf_lr.joblib` and `urgency_clf_lr.joblib` | high; not executed | TrainModels.AsWrittenNotLoadable | TrainModels.SavedFilesLoad |
