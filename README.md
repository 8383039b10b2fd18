# Message classification service and university records API, modelled in Dafny

The repository has two parts.

The first is a message-classification service. A heuristic classifier reads a
message's subject and snippet and scores them against four fixed keyword lists:
urgency, action, follow-up and noise. From those scores it picks a label (todo,
followup, noise) and a base priority. Senders whose address mentions "ceo",
"boss", "legal" or "manager" get a priority boost, capped at 10. A task generator
then turns every todo or followup classification whose message is known into an
open task. The task gets a title, a description and a due date taken from phrases
such as "eod today", "tomorrow", "this week" and "next week", or else from the
label and priority. A configuration module builds the database URL and has a validation routine
that reports the secrets missing in production.

The second part is a small API over four in-memory dictionaries: persons,
addresses, books and courses. It has create, get, list-with-filters, patch and
delete handlers. Book ISBNs and course codes are constrained by patterns. Course
credits, years and enrolment figures are constrained by bounds.

The model is split into modules:

- `Wrappers`, `Basics`, `Patches` (wrappers.dfy): `Option`, `Result` and
  `Outcome`; ids, timestamps and ordinal dates; and partial updates.
  `Patch<T> = Keep | Assign(Option<T>)` is how `model_dump(exclude_unset=True)`
  sees each field of an update.
- `Text` (text.dfy): ASCII `str.lower`, substring test, `startswith`, `join`, `str(int)`.
- `Sequences` (sequences.dfy): list comprehensions as `Filter`, and the laws that
  turn a chain of optional filters into one filter.
- `OrderedDict` (ordered_dict.dfy): a Python `dict` with insertion order, `values()`,
  assignment and `del`.
- `Patterns` (patterns.dfy): the anchored fixed-width regular expressions of the
  field validators.
- `MessageModel`, `ClassificationModel`, `TaskModel`, `CourseModel`, `BookModel`,
  `People`: the records and their validating constructors.
- `Classifier` (services/ai_classifier.py) and `TaskGenerator`
  (services/task_generator.py). Each batch operation is a method with a loop,
  proved against a recursive specification function.
- `Queries` and `Api` (main.py). The list filters are comprehension chains. The
  class `Api.Store` holds the four dictionaries as fields, and its handler
  methods update them in place.
- `AppConfig` (utils/config.py).

Fresh UUIDs (`uuid4()`), the clock (`utcnow()`), the calendar (`date.today()`) and
the `strftime` rendering of the received time are inputs to the model.

## Model

| member | source | states |
|---|---|---|
| MessageModel.ChannelRoundTrip | models/message.py:9-11 | the string value of a channel parses back to the same channel |
| MessageModel.SubjectText | services/ai_classifier.py:76 | `subject or ''`: the subject when one is present and non-empty, else the empty string |
| MessageModel.MessageReadAsDeclared | models/message.py:28-32 | as declared, building a message succeeds iff an id is supplied; on success it keeps that id and account |
| MessageModel.OmittedMessageIdFails | models/message.py:30 | a message built without an explicit id always fails, because the default factory `UUID()` raises |
| MessageModel.NewMessageRead | models/message.py:28-32 | the intended constructor always succeeds: an omitted id is a fresh UUID, an omitted creation time is now, and the external id, channel, sender, subject, snippet, receipt time, raw reference and priority are copied from the base record |
| MessageModel.IntendedAgreesWhenIdGiven | models/message.py:28-32 | when an id is given, the declared and the intended constructors build the same message |
| ClassificationModel.LabelRoundTrip | models/classification.py:9-12 | the string value of a label parses back to the same label |
| ClassificationModel.NewClassificationRead | models/classification.py:14-33 | a classification is built iff its priority is in 1..10, and it keeps every given field |
| ClassificationModel.NewClassificationUpdate | models/classification.py:25-28 | an update is accepted iff its priority is absent or in 1..10 |
| ClassificationModel.NewClassificationRequest | models/classification.py:47-56 | a request is rejected iff both the id list and the user id are missing or empty |
| TaskModel.StatusRoundTrip | models/task.py:9-11 | the string value of a status parses back to the same status |
| TaskModel.NewTaskRead | models/task.py:13-38 | a task is built iff its priority is in 1..10, and it keeps every given field |
| TaskModel.TaskDefaults | models/task.py:13-21 | a task given only its required fields is open, with no source message, due date or description |
| TaskModel.NewTaskUpdate | models/task.py:27-33 | a task update is accepted iff its priority is absent or in 1..10 |
| CourseModel.SemesterRoundTrip | models/course.py:13-16 | the string value of a semester parses back to the same semester |
| CourseModel.DayRoundTrip | models/course.py:19-26 | the string value of a weekday parses back to the same weekday |
| CourseModel.CourseCodeShape | models/course.py:10 | a course code matches iff it is 4 upper-case ASCII letters followed by 4 ASCII digits |
| CourseModel.NewCourseCreate | models/course.py:143-161 | a create request is accepted iff the code, credits (1..6), year (2020..2030), maximum (>= 1) and current enrolment (>= 0) are valid; it keeps every one of the fifteen fields |
| CourseModel.CourseCreateDefaults | models/course.py:155-161 | a request given only its required fields has no enrolment, no meeting days, no prerequisites and is active |
| CourseModel.CourseFromCreate | main.py:122-126 | the stored course carries the drawn id and the request's fields, and is valid iff the request is |
| CourseModel.CourseRoundTrip | models/course.py:29-161 | a stored course minus its id, rebuilt under the same id, is the same course |
| CourseModel.Overlay | main.py:167-168 | overlaying an update fails iff it sends null for a required field; otherwise the id and code are kept |
| CourseModel.OverlayIdempotent | main.py:167-168 | overlaying the same update twice gives the same result as overlaying it once |
| CourseModel.MergeCourse | main.py:167-169 | re-validating the merged course fails if a required field was nulled; a success is valid and keeps the id and code |
| CourseModel.MergeSucceeds | models/course.py:164-178 | a valid update to a valid course succeeds iff it sends no null for a required field |
| CourseModel.MergeFollowsUpdate | main.py:167-169 | after a successful merge, each of the 14 fields holds the sent value if it was sent, and otherwise the stored value |
| CourseModel.MergeNothing | main.py:167-169 | an empty update leaves a valid course unchanged |
| CourseModel.MergeIdempotent | main.py:167-169 | sending the same update twice has the effect of sending it once |
| BookModel.IsbnShape | models/book.py:10 | an ISBN matches iff it is 13 ASCII digits that start with 978 |
| BookModel.NewBookCreate | models/book.py:97-111 | a create request is accepted iff the ISBN matches, and it keeps every one of the eleven fields, the publication date included |
| BookModel.BookCreateDefaults | models/book.py:104-111 | a request given only its required fields is available, with no co-authors and no genre |
| BookModel.BookFromCreate | main.py:65-69 | the stored book carries the drawn id and the request's fields, and is valid iff the request is |
| BookModel.BookRoundTrip | models/book.py:13-73 | a stored book minus its id, rebuilt under the same id, is the same book |
| BookModel.Overlay | main.py:107-108 | overlaying an update fails iff it sends null for a required field; otherwise the id and ISBN are kept |
| BookModel.MergeBook | main.py:107-109 | the merge succeeds iff the stored book is valid and no required field is nulled; a success is valid and keeps the id and ISBN |
| BookModel.MergeFollowsUpdate | main.py:107-109 | after a successful merge, each of the 10 fields holds the sent value if it was sent, and otherwise the stored value |
| BookModel.MergeNothing | main.py:107-109 | an empty update leaves a valid book unchanged |
| BookModel.MergeIdempotent | main.py:107-109 | sending the same update twice has the effect of sending it once |
| People.PersonFromCreate | main.py:233 | the stored person carries the fresh id, and the uni, names, email, phone, birth date and addresses of the request |
| People.MergePerson | main.py:281-283 | the merged person keeps the id; each field is `Apply` of the update's and the stored value: the sent value if sent, else the stored one |
| People.MergeAddress | main.py:222-224 | the merged address keeps the id; each field is `Apply` of the update's and the stored value: the sent value if sent, else the stored one |
| People.MergePersonIdempotent | main.py:281-283 | applying the same person update twice equals applying it once |
| Queries.SelectBooksIsFilter | main.py:80-95 | the chain of book filters equals one filter by the conjunction of the given filters |
| Queries.SelectBooksMeaning | main.py:80-95 | a book is listed iff it is stored and matches every given filter: ISBN exactly, title/author/publisher as case-insensitive substrings, genre only when present and non-empty, availability exactly. The order is the stored order, and a request without filters lists everything |
| Queries.SelectCoursesIsFilter | main.py:138-155 | the chain of course filters equals one filter by the conjunction |
| Queries.SelectCoursesMeaning | main.py:138-155 | a course is listed iff it is stored and matches every given filter: code, semester value, year, credits and active exactly, title/instructor case-insensitively. The order is the stored order, and no filters lists all |
| Queries.SelectAddressesIsFilter | main.py:197-210 | the chain of address filters equals one filter by the conjunction |
| Queries.SelectAddressesMeaning | main.py:197-210 | an address is listed iff it is stored and every given field is equal. The order is the stored order, and no filters lists all |
| Queries.SelectPersonsIsFilter | main.py:248-269 | the chain of person filters equals one filter by the conjunction |
| Queries.SelectPersonsMeaning | main.py:248-269 | a person is listed iff they are stored and match every given field. A city or country filter keeps them iff at least one of their addresses has it. The order is the stored order, and no filters lists all |
| Api.Store.constructor | main.py:25-28 | the four stores start empty and consistent |
| Api.Store.GetBook | main.py:97-101 | 404 "Book not found" iff the id is absent; otherwise the stored book, which carries that id and is valid |
| Api.Store.ListBooks | main.py:71-95 | exactly the stored books (each under its own id) that match the query, as a subsequence of `values()` |
| Api.Store.CreateBook | main.py:65-69 | stores the new book under the drawn id, which can then be fetched; the other stores are unchanged |
| Api.Store.UpdateBook | main.py:103-110 | 404 for an absent id. Otherwise it succeeds iff no required field is nulled, and stores the merged book in place. On any failure the store is unchanged |
| Api.Store.DeleteBook | main.py:112-117 | 404 and no change for an absent id; otherwise removes exactly that key; afterwards the id is not found |
| Api.Store.GetCourse | main.py:157-161 | 404 "Course not found" iff the id is absent; otherwise the stored, valid course with that id |
| Api.Store.ListCourses | main.py:128-155 | exactly the stored courses that match the query, as a subsequence of `values()` |
| Api.Store.CreateCourse | main.py:122-126 | stores the new course under the drawn id; the other stores are unchanged |
| Api.Store.UpdateCourse | main.py:163-170 | 404 for an absent id. Otherwise it succeeds iff no required field is nulled, and stores the merged course in place. On failure the store is unchanged |
| Api.Store.DeleteCourse | main.py:172-177 | 404 and no change for an absent id; otherwise removes exactly that key |
| Api.Store.GetAddress | main.py:212-216 | 404 "Address not found" iff the id is absent; otherwise the address with that id |
| Api.Store.ListAddresses | main.py:189-210 | exactly the stored addresses that match the query, as a subsequence of `values()` |
| Api.Store.CreateAddress | main.py:182-187 | 400 and no change iff the client-chosen id is already present; otherwise stores the address under its id |
| Api.Store.UpdateAddress | main.py:218-225 | 404 and no change iff the id is absent; otherwise stores the merged address in place |
| Api.Store.GetPerson | main.py:271-275 | 404 "Person not found" iff the id is absent; otherwise the person with that id |
| Api.Store.ListPersons | main.py:237-269 | exactly the stored persons that match the query, as a subsequence of `values()` |
| Api.Store.CreatePerson | main.py:230-235 | stores the new person under the fresh id; the other stores are unchanged |
| Api.Store.UpdatePerson | main.py:277-284 | 404 and no change iff the id is absent; otherwise stores the merged person in place |
| Classifier.ScoreCountsEntriesPresent | services/ai_classifier.py:85-88 | for a list without repeats, the score is the number of distinct vocabulary entries that occur in the content |
| Classifier.VocabulariesDistinct | services/ai_classifier.py:79-82 | no vocabulary lists a word twice |
| Classifier.ScoresOf | services/ai_classifier.py:84-88 | scores are bounded by the vocabulary sizes 6, 8, 6 and 5 |
| Classifier.LabelFor | services/ai_classifier.py:90-100 | the label is never FOLLOWUP. Noise without action words is NOISE. TODO iff there is no noise-only signal and there are 2+ urgency words, 2+ action words or any follow-up word |
| Classifier.BasePriority | services/ai_classifier.py:102-113 | the base priority is one of 3, 5, 6, 7, 9. It is 9 iff there are two or more urgency words and 7 iff there is one. Without urgency words it is 6 iff there are two or more action words, 5 iff there is one, and 3 iff there are none |
| Classifier.BasePriorityMonotone | services/ai_classifier.py:102-113 | more urgency and action words never lower the base priority |
| Classifier.SenderBoost | services/ai_classifier.py:55-71 | the total boost for the sender is at most 6 (3 + 2 + 1) |
| Classifier.ApplyBusinessRules | services/ai_classifier.py:55-71 | the boosted priority is the base plus the sender's boost, capped at 10; a base of at most 10 is never lowered and the result never exceeds 10 |
| Classifier.MockClassify | services/ai_classifier.py:73-124 | always succeeds, for the message's id and the drawn id, with priority in 3..10, never FOLLOWUP, and NOISE when there is noise without action |
| Classifier.MockClassifyRules | services/ai_classifier.py:116-124 | the classification's label is the label cascade of the message's scores, and its priority is the base priority boosted by the sender rules |
| Classifier.CeoSenderBoost | services/ai_classifier.py:59-61 | a sender naming the CEO or the boss, and no other boost word, gets the base priority plus three, capped at 10 |
| Classifier.AiClassify | services/ai_classifier.py:126-130 | the language-model path always yields a valid classification of the message under the drawn id, with a priority in 3..10 and never FOLLOWUP. It is the heuristic's result |
| Classifier.ClassifyOne | services/ai_classifier.py:36-39 | in either mode the classification is the heuristic one |
| Classifier.Failures | services/ai_classifier.py:44-46 | failures and successes together account for every message |
| Classifier.BatchClassifiesEveryMessage | services/ai_classifier.py:33-47 | no message fails, and the i-th classification belongs to the i-th message |
| Classifier.ClassifyMessages | services/ai_classifier.py:19-53 | the loop returns the specified classifications; total = number of messages = successes + errors, with errors 0, in message order |
| TaskGenerator.Title | services/task_generator.py:94-102 | the title is never empty. It is the subject if there is one; else the snippet when it has at most 50 characters; else its first 50 characters plus "..." (53 characters); else exactly "Task from " followed by the sender |
| TaskGenerator.Description | services/task_generator.py:104-120 | the description contains the sender, the channel, the formatted receipt time, the subject when present and the snippet when non-empty, and ends with the classification line |
| TaskGenerator.DaysUntilFriday | services/task_generator.py:133 | the offset is in 0..6 and lands on a Friday |
| TaskGenerator.FridayOffset | services/task_generator.py:131-138 | `(4 - weekday + 7) % 7` days after any day is a Friday |
| TaskGenerator.DueDate | services/task_generator.py:122-146 | no due date iff no date phrase occurs and the label is NOISE; any due date lies within the next 14 days |
| TaskGenerator.TomorrowRule | services/task_generator.py:129-130 | the three "tomorrow" phrases reduce to the single test "tomorrow" |
| TaskGenerator.DueDateRules | services/task_generator.py:126-146 | rule by rule: today; tomorrow; this week's Friday; next week's Friday; tomorrow for TODO with priority >= 8; three days for other TODO; five days for FOLLOWUP |
| TaskGenerator.CreateTask | services/task_generator.py:65-92 | a task is built iff the priority is in 1..10. It is open, for the requesting user, sourced from the message, with its priority. Its title is `Title` of the message, its description is `Description` of the message and classification, and its due date is `DueDate`, which is set unless NOISE |
| TaskGenerator.MessageIndex | services/task_generator.py:39 | every message's id is a key, and each key maps to a given message with that id |
| TaskGenerator.MessageIndexLastWins | services/task_generator.py:39 | a key maps to the last message given with that id: no later message carries it |
| TaskGenerator.Attempt | services/task_generator.py:42-56 | one classification fails iff its message is missing or a non-NOISE priority is out of range, is skipped iff its message is known and it is NOISE, and otherwise makes a task for it |
| TaskGenerator.Errors | services/task_generator.py:54-56 | errors plus generated tasks never exceed the classifications |
| TaskGenerator.GeneratedTasks | services/task_generator.py:41-56 | every generated task is open, for the user, and comes from a non-NOISE classification of the batch whose message is known; its title and due date are `Title` and `DueDate` of that message and classification |
| TaskGenerator.GeneratedInOrder | services/task_generator.py:41-56 | the tasks' source messages follow the classifications' order |
| TaskGenerator.CleanBatch | services/task_generator.py:41-56 | when every message is known and every priority valid, there are no errors and one task per non-NOISE classification |
| TaskGenerator.GenerateTasks | services/task_generator.py:17-63 | the loop returns the specified tasks, counts and errors. Total = number of classifications, successes = tasks. Every task belongs to the batch and they are in order |
| AppConfig.DatabaseUrl | utils/config.py:52-69 | an unsupported type is an error naming it. Otherwise the URL starts with the scheme and `user:password@`. It ends with `/name?host=`/`?unix_socket=` and the host for a Cloud SQL socket, else with `host:port/name`. The length of the URL is that of the prefix plus the suffix, less their shared `@`, so nothing lies between them |
| AppConfig.SocketUrlIgnoresPort | utils/config.py:57-65 | a Cloud SQL socket URL does not depend on the port |
| AppConfig.ProductionIgnoresCase | utils/config.py:71-74 | environment names equal up to case agree on being production |
| AppConfig.ProductionSpelling | utils/config.py:71-74 | production iff the name is "production" letter by letter, ignoring case |
| AppConfig.Problems | utils/config.py:79-87 | no problems outside production. In production, each message is present iff its secret is missing or default |
| AppConfig.Validate | utils/config.py:76-90 | fails iff in production with a missing API key, empty password or default JWT secret. The error is the prefix plus the joined problems and contains each one. It always passes outside production |
| AppConfig.AllProblems | utils/config.py:79-87 | with every secret missing, all three problems are reported, in check order |
| AppConfig.DefaultsPass | utils/config.py:14-34 | the default settings (development) pass validation |
| AppConfig.DefaultsFailInProduction | utils/config.py:14-34 | the default settings switched to production fail on all three secrets |

## Left out

- Health and root endpoints (main.py:40-60, 289-291) and the entry point: they read the clock and the host's IP address, or only return constants.
- Routing, JSON serialisation and FastAPI's request validation are not modelled. The handlers take requests that already passed validation: `input.Valid()` and `u.Valid()` are preconditions, because invalid bodies are answered with 422 before the handler runs.
- `models.person` and `models.address` are not part of this model. Persons and addresses carry only their id and the fields the filters compare. Their own validation (UNI format, e-mail, birth date parsing) is taken to accept every record. So `People.MergePerson` and `People.MergeAddress` never fail, and the birth date is kept as the text `str(birth_date)` that the filter compares.
- Api.Store.CreateBook: a drawn id that collides with a stored one overwrites that entry, as the dict assignment does. UUID collisions are otherwise not modelled.
- Python's `str.lower` is modelled on ASCII letters only, and the regex class `\d` as ASCII digits. For non-ASCII text the real functions differ.
- The `Decimal` price is an exact `real`. Times of day are seconds after midnight. Dates are ordinals, with `weekday()` = (ordinal + 6) mod 7.
- The `strftime('%Y-%m-%d %H:%M')` rendering of the received time is a formatter parameter, and the task description's `Received:` line holds whatever it renders.
- AppConfig.Validate models `Config.validate` as a routine a caller may run: nothing in utils/config.py or main.py calls it at start-up, so the model makes no claim that the service refuses to start.
- The clock is one parameter per batch: `now` for creation times and `today` for due dates. The source calls `datetime.utcnow()` once per message (services/ai_classifier.py:123, services/task_generator.py:91) and `date.today()` once per due date (services/task_generator.py:128-146), so times within a batch can differ there, and a batch that runs across midnight can mix two days.
- `print` of errors in both batch loops is left out. Failures are counted, not logged.
- The AI classifier's settings (`openai_api_key`, `mock_mode`) are a record read by the batch loop. Both modes give the heuristic result, because the language-model path falls back to it.
- The configuration values are read from the environment once, at import. The model takes the resulting record as input, and `int()` parsing of ports is not modelled. Settings the three operations do not read (service URLs, Pub/Sub names, the model name, the JWT algorithm, the connector flag) are left out.
- Database access, the integrations HTTP client, Pub/Sub, the cloud function, JWT middleware, migrations and the brief models are outside the modelled core.
- ClassificationModel.NewClassificationRead and TaskModel.NewTaskRead take the id as a required argument. `cls_id` and `task_id` use the same `default_factory=UUID` as `msg_id` (models/classification.py:32, models/task.py:37), but the services always pass `uuid4()`, so the failing default is modelled for messages only.
- Classifier.LabelFor: the FOLLOWUP branch of the label cascade (services/ai_classifier.py:97-98) is unreachable, because the rule before it already returns TODO for any follow-up word. The model keeps this behaviour, and its contract proves the label is never FOLLOWUP.
- TaskGenerator.DueDate: the FOLLOWUP rule (five days) is modelled and proved, although the classifier never produces that label.

## Findings

| source | as written | input that shows it | evidently intended | confidence | as-written member | corrected member |
|---|---|---|---|---|---|---|
| models/message.py:30 | `msg_id` defaults through `default_factory=UUID`, and `UUID()` with no argument raises `TypeError` | any `MessageRead(...)` built without an explicit `msg_id` | an omitted id is a fresh random UUID (`uuid4`), as for books and courses | high (not executed) | MessageModel.OmittedMessageIdFails | MessageModel.NewMessageRead |
