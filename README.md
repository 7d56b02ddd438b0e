# Job application tracker: email sync pipeline

A Dafny model of the email-to-application pipeline of the job application
tracker. It covers three parts:

- **Gmail message source** (`app/services/gmail.py`): lists the messages of the
  configured labels, dropping repeated ids across labels, and extracts the
  headers and plain-text body of each message.
- **Classifiers** (`app/services/classifier.py`): the keyword classifier decides
  whether a message is about a job application, and extracts a company and a
  status from it. The email classifier puts a language model in front of the
  keyword classifier and falls back to it.
- **Sync route** (`app/routers/sync.py`): a single loop handles each message.
  - It skips messages already recorded in the processed-message ledger.
  - It records every other message with its relatedness verdict.
  - It classifies the related ones.
  - It then updates the status of the user's application in the same thread, or
    creates a new application. Each status an application takes is written to
    the status-change audit trail.

Files:

- `options.dfy`: the `Option` type.
- `strings.dfy`: the Python `str` operations the pipeline uses (`in`, `lower`,
  `upper`, `title`, `strip`, `split`, `splitlines`, slicing), on `seq<char>`.
- `classifier.dfy`: module `Classifier`.
  - The keyword classifier is written as functions.
  - `EmailClassifier` is a class whose `client` field says whether a model
    client was built. Its methods are proved against the `Related` and
    `Classify` policy functions.
- `gmail.dfy`: module `Gmail`.
  - `GmailService` is a class with the service state (`authenticated`) and the
    label cache.
  - Its methods are proved against specification functions: `Fetched`,
    `FindLabelId`, `ContentOf` and `BodyText`.
- `sync.dfy`: module `Sync`.
  - The `Store` class holds the ledger, the applications and the status changes.
  - The route's loop (`SyncMessages`, `ProcessMessage`, `ApplyDetails`) is
    proved to compute the specification functions `Run`, `Step` and
    `Reconcile`.
  - The lemmas prove what a run keeps and what a second run over the same batch
    does.

Network answers are inputs of the model:
- The Gmail API's answers are `Option` values, where `None` is an `HttpError`.
- The model's replies are also `Option` values, where `None` is a call that
  raised.
- The outcome of OAuth authentication is a boolean.

The classifier is reached from the sync loop through a `Judge`: the pair of the
relatedness and classification decisions. `EmailJudge` builds the judge that
`RunSync` uses from the same `Related` and `Classify` functions that the
`EmailClassifier` methods are proved to compute.

Points of the code the model keeps as written:
- `is_job_related` runs its sender "prefix" test over `JOB_SENDER_PREFIXES`
  (`app/services/classifier.py:93-96`) as a substring test anywhere in the
  sender, not only at the start of the local part. `PrefixAnywhereSuffices`
  states this.
- `run_sync` returns two counters, created and updated
  (`app/routers/sync.py:185-188`). The number of messages fetched is only logged.
- No call is retried.
- The processed-message query (`app/routers/sync.py:89-91`) has no user filter,
  so the ledger is shared by all users. The thread lookup
  (`app/routers/sync.py:134-137`) is restricted to the current user.

## Model

| member | source | states |
|---|---|---|
| Strings.Strip | app/services/classifier.py:266 | `strip()` removes exactly the leading and trailing white space: the result is the inner slice and neither starts nor ends with white space |
| Strings.Lower | app/services/classifier.py:83-85 | `lower()` keeps the length and lower-cases each character in place |
| Strings.LowerIdempotent | app/services/classifier.py:83-85 | lower-casing an already lower-cased text changes nothing |
| Strings.Title | app/services/classifier.py:138 | `title()` keeps the length, upper-cases each letter that starts a word and lower-cases the other letters |
| Strings.TitleIdempotent | app/services/classifier.py:138 | title-casing an already title-cased domain changes nothing |
| Strings.ContainsTransitive | app/services/classifier.py:89-101 | Python's `in` on strings is transitive: a keyword inside a fragment that occurs in the sender occurs in the sender |
| Strings.StripIdempotent | app/services/classifier.py:266-270 | stripping an already stripped line (or value) changes nothing |
| Strings.Split | app/services/gmail.py:143 | `split(',')` yields at least one piece, and no piece holds the separator |
| Strings.JoinSplit | app/services/gmail.py:143 | joining the pieces of a split with the separator gives back the original setting |
| Strings.SplitJoin | app/services/gmail.py:143 | splitting separator-free names joined by the separator gives back the names |
| Strings.SplitLinesKeepsText | app/services/classifier.py:265 | the reply's lines hold every character of the reply except the line breaks, in order |
| Classifier.AnyOccurs | app/services/classifier.py:89-101 | the keyword loops return true exactly when some entry of the list is a substring of the text |
| Classifier.CountZeroMeansNone | app/services/classifier.py:104 | the body-keyword count is zero exactly when no keyword occurs in the text |
| Classifier.KeywordRelated | app/services/classifier.py:81-108 | a message is related exactly when a job-board fragment or a role prefix occurs in the lower-cased sender, a lifecycle keyword occurs in the lower-cased subject, or two different body keywords occur in "subject snippet" |
| Classifier.CountReachesTwo | app/services/classifier.py:104-105 | `body_matches >= 2` holds exactly when two different body keywords occur |
| Classifier.SenderFragmentSuffices | app/services/classifier.py:89-91 | a job-board fragment in the lower-cased sender makes the message related whatever else it says |
| Classifier.PrefixAnywhereSuffices | app/services/classifier.py:94-96 | a role-style prefix occurring at any position of the sender makes the message related |
| Classifier.BodyKeywordsNeedTwo | app/services/classifier.py:103-108 | with no sender or subject hit, a message is related exactly when two different body keywords occur in "subject snippet" |
| Classifier.OneBodyHitIsNotEnough | app/services/classifier.py:103-108 | with no header hit, at most one body keyword leaves the message unrelated |
| Classifier.NearNeedsBoth | app/services/classifier.py:56 | a `first.{0,n}second` status pattern matches only a text that holds both words |
| Classifier.AdjacentIsNear | app/services/classifier.py:72 | the two words of a `first.{0,n}second` pattern side by side always match it |
| Classifier.NewlineBreaksNear | app/services/classifier.py:56 | a newline after the first word, before every nearby occurrence of the second, defeats the pattern at that start, since `.` does not match a newline |
| Classifier.Name | app/services/classifier.py:49-75 | every status name detect_status can return is one of the six statuses of the closed vocabulary |
| Classifier.FirstMatching | app/services/classifier.py:115-118 | the scan finds the first category with a matching pattern, and no earlier category matches |
| Classifier.DetectStatus | app/services/classifier.py:110-120 | the status is a category with a matching pattern in the lower-cased content and no category of higher priority matches; `applied` when nothing matches |
| Classifier.DeclinedWins | app/services/classifier.py:49-54 | a rejection phrase decides the status whatever else the email mentions |
| Classifier.PhoneScreenIsInterviewing | app/services/classifier.py:55-64 | "phone screen" is listed under both interviewing and screening, and interviewing comes first, so an email mentioning it is never classified as screening |
| Classifier.DisplayName | app/services/classifier.py:125 | the display-name regex matches exactly when the first '<' is not the first character, and group 1 is everything before it |
| Classifier.DomainGroup | app/services/classifier.py:133-135 | the domain group is non-empty and holds no '.' |
| Classifier.DomainGroupSpan | app/services/classifier.py:133-135 | group 1 of `@([^.]+)\.` is exactly the text from just after the '@' up to the first '.' after it |
| Classifier.FirstDomainAt | app/services/classifier.py:133 | the domain search matches at the leftmost '@' that is followed by a non-empty dot-free run and a '.' |
| Classifier.ExtractCompany | app/services/classifier.py:122-140 | the company is the stripped display name when it is not generic; otherwise the title-cased domain label of the leftmost match unless it is a provider or ATS; otherwise "Unknown Company" |
| Classifier.BlankDisplayNameGivesEmptyCompany | app/services/classifier.py:125-130 | a display name made only of white space strips to "", which is not generic, so the company is "" and the domain is never consulted |
| Classifier.KeywordClassify | app/services/classifier.py:142-155 | there is no result exactly when the first 500 body characters do not make the message related; otherwise the result has four keys: the extracted company, "Unknown" title and location, and the status detected in "subject body", which is in the vocabulary |
| Classifier.KeywordDetails | app/services/classifier.py:150-155 | the result dictionary has exactly the four keys, with the given company and status |
| Classifier.ParseLine | app/services/classifier.py:266-270 | a reply line gives an entry exactly when its stripped form holds a ':'; the key has no spaces or upper-case letters and the value is stripped |
| Classifier.ParseLineSplitsAtFirstColon | app/services/classifier.py:266-270 | a line is split at the FIRST ':' of its stripped form: the key is the normalised text before it and the value the stripped text after it |
| Classifier.Key | app/services/classifier.py:269 | a key, once stripped, lower-cased and with spaces replaced by '_', holds no space and no upper-case letter |
| Classifier.CollectStep | app/services/classifier.py:265-270 | each reply line either sets one key or leaves the dictionary unchanged |
| Classifier.AssembledKeys | app/services/classifier.py:264-270 | a key is in the parsed details exactly when some line produced it |
| Classifier.LastEntryWins | app/services/classifier.py:264-270 | a repeated key keeps the value of its last line |
| Classifier.IgnoredLine | app/services/classifier.py:267 | a line without ':' (a blank line included) contributes nothing |
| Classifier.LineEntryIsParse | app/services/classifier.py:267-270 | a line contributes exactly the entry its parse gives |
| Classifier.LineGivesEntry | app/services/classifier.py:265-270 | every reply line holding a ':' contributes its key and value to the entries |
| Classifier.EntryHasLine | app/services/classifier.py:265-270 | every entry is the key and value of some reply line |
| Classifier.ReplyValueFromLine | app/services/classifier.py:264-270 | every key of the parsed details, with its value, comes from some reply line |
| Classifier.LineKeyInReply | app/services/classifier.py:264-270 | the key of every reply line holding a ':' is among the parsed details |
| Classifier.LastLineWins | app/services/classifier.py:264-270 | the last line, when it holds a ':', sets its key to its value whatever came before |
| Classifier.FirstAlias | app/services/classifier.py:285-288 | the status rewrite picks the first alias key, in declaration order, contained in the lower-cased status |
| Classifier.NormalizeStatus | app/services/classifier.py:283-288 | normalisation keeps every key and every entry other than the status; the status becomes the value of the first alias key its lower-cased text contains, and stays as it was when there is none |
| Classifier.Related | app/services/classifier.py:180-215 | a keyword hit is always related; otherwise the message is related exactly when a client exists, the call succeeds, and the stripped, lower-cased reply is "yes" |
| Classifier.Classify | app/services/classifier.py:217-297 | without a client or with a failed call the result is the keyword classification; the sentinel reply gives no result; any other result is the keyword one or the parsed reply with a non-empty company |
| Classifier.ModelNeverOverturnsKeywordHit | app/services/classifier.py:186-187 | the model never turns a keyword hit into "not related" |
| Classifier.SentinelMeansNoResult | app/services/classifier.py:260-261 | the NOT_JOB_EMAIL reply yields no result even when the keywords match |
| Classifier.NoCompanyFallsBack | app/services/classifier.py:290-297 | a reply that names no company (key missing or empty) gives the keyword classification |
| Classifier.ClassifyFallsBack | app/services/classifier.py:293-297 | without a client, or when the call fails, extraction is the keyword classification |
| Classifier.ModelResultShape | app/services/classifier.py:283-291 | a reply with a non-empty company is returned as parsed; its status is in the vocabulary unless no alias key occurred in it |
| Classifier.CollectDetails | app/services/classifier.py:264-270 | the parsing loop computes the parsed details of the reply lines |
| Classifier.RewriteStatus | app/services/classifier.py:283-288 | the normalisation loop with its `break` computes the normalised details |
| Classifier.EmailClassifier.constructor | app/services/classifier.py:161-170 | a client exists exactly when the API key is set and non-empty and the client library imports |
| Classifier.EmailClassifier.IsJobRelated | app/services/classifier.py:180-215 | the method keeps the keyword hit, consults the model only on a miss with a client, and computes the relatedness policy |
| Classifier.EmailClassifier.ClassifyEmail | app/services/classifier.py:217-297 | the method computes the extraction policy: sentinel gives no result, parsed details with a company win, anything else falls back to the keyword classification |
| Gmail.NonBlank | app/services/gmail.py:143 | the label comprehension keeps no empty name and never yields more names than pieces |
| Gmail.NonBlankStep | app/services/gmail.py:143 | each piece adds its stripped text when that is non-empty, and nothing otherwise |
| Gmail.NonBlankMembers | app/services/gmail.py:143 | the names are exactly the non-empty stripped pieces |
| Gmail.ParseLabelList | app/services/gmail.py:143 | every configured label name is non-empty and free of commas |
| Gmail.ParsedLabelsAreClean | app/services/gmail.py:143 | every configured label name is free of surrounding white space |
| Gmail.LabelListRoundTrip | app/services/gmail.py:143 | parsing clean names joined by commas gives back exactly the names, in order |
| Gmail.NonBlankKeeps | app/services/gmail.py:143 | pieces that are already non-empty and stripped all survive the comprehension unchanged |
| Gmail.FirstNamed | app/services/gmail.py:115-118 | the scan stops at the first label whose name matches ignoring case |
| Gmail.FindLabelId | app/services/gmail.py:114-118 | there is no id exactly when no label has the name ignoring case; otherwise the id is that of the first such label |
| Gmail.Resolve | app/services/gmail.py:154-161 | a system label (in any case) is used upper-cased; any other is looked up, and is skipped when unknown or when its id is empty |
| Gmail.GatheredFromSomeLabel | app/services/gmail.py:152-176 | every gathered message comes from the listing of some label that resolved and was listed successfully |
| Gmail.IndexOfId | app/services/gmail.py:173-176 | the first position holding a message with a given id |
| Gmail.DedupDistinct | app/services/gmail.py:173-176 | no two kept messages share an id |
| Gmail.DedupCovers | app/services/gmail.py:173-176 | every id listed is kept, and nothing outside the listing is |
| Gmail.DedupKeepsFirst | app/services/gmail.py:173-176 | each kept message is the first occurrence of its id |
| Gmail.DedupKeepsOrder | app/services/gmail.py:173-176 | kept messages are in the order of their first occurrences |
| Gmail.DedupKeepsFirstOccurrences | app/services/gmail.py:148-176 | the seen-ids de-duplication returns distinct ids, exactly the listed ids, each as its first occurrence, in first-occurrence order |
| Gmail.FetchedFromSomeLabel | app/services/gmail.py:148-184 | every fetched message is in the answer of a label that resolved and listed |
| Gmail.Fetched | app/services/gmail.py:148-176 | the fetched messages have distinct ids, and every id any label listed is among them |
| Gmail.FailedListingAddsNothing | app/services/gmail.py:180-181 | a label whose listing raises adds nothing, and the loop goes on with the next label |
| Gmail.CacheAfterShape | app/services/gmail.py:88-99 | the label cache is either unchanged or, when it was empty, the one successful labels answer |
| Gmail.AddUnseen | app/services/gmail.py:172-176 | the inner loop appends exactly the unseen messages of one answer and keeps `seen_ids` equal to the ids appended |
| Gmail.FirstHeader | app/services/gmail.py:210-211 | the scan finds the first header with the lower-cased name |
| Gmail.HeaderValue | app/services/gmail.py:210-211 | the value of the first header named Subject or From in any case, or "" when there is none |
| Gmail.PlainTextIgnoresOtherParts | app/services/gmail.py:243-248 | only text/plain parts with data contribute to the body |
| Gmail.NoTextPartNoText | app/services/gmail.py:243-248 | a multipart message without a text/plain part with data has an empty body, with no fall-back to the top-level data |
| Gmail.PlainTextStep | app/services/gmail.py:243-248 | each part adds its decoded data exactly when it is text/plain with data |
| Gmail.PlainTextGrows | app/services/gmail.py:243-248 | the `+=` loop only appends: the text of fewer parts is a prefix of the text of more |
| Gmail.PartsShadowData | app/services/gmail.py:243-252 | a message with parts ignores its top-level data |
| Gmail.SingleTextPart | app/services/gmail.py:243-248 | a message whose single part is text/plain with data has that part's decoded data as body |
| Gmail.ContentOf | app/services/gmail.py:199-236 | there is content exactly when the call succeeds; the body is at most 4000 characters and the id is the requested one |
| Gmail.GmailService.constructor | app/services/gmail.py:30-32 | a new service is not authenticated and has nothing cached |
| Gmail.GmailService.Authenticate | app/services/gmail.py:34-75 | success builds the service; the label cache is untouched |
| Gmail.GmailService.GetLabels | app/services/gmail.py:81-102 | a non-empty cache is returned unchanged; otherwise the labels are listed after authenticating, a successful answer becomes the cache, and a failure returns [] |
| Gmail.GmailService.GetLabelId | app/services/gmail.py:104-118 | the id found in the labels get_labels returns, with the cache updated as get_labels does |
| Gmail.GmailService.ResolveLabel | app/services/gmail.py:153-161 | the label id used for a name is the resolution against the labels in effect; only a custom label touches the cache |
| Gmail.GmailService.ScanLabel | app/services/gmail.py:152-181 | one label iteration extends the de-duplicated result by that label's answer |
| Gmail.GmailService.ScanLabels | app/services/gmail.py:148-184 | the label loop returns the de-duplicated messages of all labels, in label-then-answer order |
| Gmail.GmailService.FetchMessages | app/services/gmail.py:120-184 | nothing is fetched when authentication fails; otherwise the labels given or configured are scanned as above |
| Gmail.GmailService.GetMessageContent | app/services/gmail.py:186-236 | no content without a service or when the call fails; otherwise the first Subject and From headers, the body cut to 4000 characters, and the thread id, snippet, date and labels |
| Gmail.GmailService.ExtractBody | app/services/gmail.py:238-254 | the `+=` loop computes the concatenated decoded text/plain parts, or the decoded top-level data when there are no parts |
| Sync.StatusFor | app/routers/sync.py:126-127 | the mapped status is the one named by the lower-cased text, or Applied; never Accepted |
| Sync.StatusForName | app/routers/sync.py:28-35 | STATUS_MAP reaches each of the six statuses from its own name |
| Sync.FindThread | app/routers/sync.py:133-137 | the lookup finds the first of the user's applications in the thread |
| Sync.Lookup | app/routers/sync.py:129-137 | there is no lookup without a thread id; with one, there is none exactly when no application of the user has the thread, and otherwise it is the first of the user's applications in the thread |
| Sync.Reconcile | app/routers/sync.py:125-181 | update-or-create leaves the ledger alone, adds an application only when creating, adds one change exactly when updating or creating, and leaves other users' applications untouched; it creates exactly when the lookup finds nothing |
| Sync.Step | app/routers/sync.py:85-181 | one message: the ledger only grows; every message with content is recorded; skipped messages change nothing; other users' applications are untouched |
| Sync.Run | app/routers/sync.py:82-181 | the counters add up to at most the number of messages; applications grow by `created`, changes by `created + updated` |
| Sync.SkipsProcessed | app/routers/sync.py:88-94 | a message already in the ledger changes nothing |
| Sync.SkipsMissingContent | app/routers/sync.py:96-99 | a message whose content cannot be fetched is not recorded, so a later run retries it |
| Sync.RecordsVerdict | app/routers/sync.py:107-117 | every other message is recorded once with its relatedness verdict, and stops there exactly when it is not related |
| Sync.ClassifiedIsReconciled | app/routers/sync.py:96-181 | a new related message with content and details is recorded and then reconciled with those details |
| Sync.NoDetailsOnlyRecords | app/routers/sync.py:119-123 | a related message without details is recorded and goes no further |
| Sync.OnlyUpdatesAndCreatesWrite | app/routers/sync.py:116-123 | unrelated, unclassified and unchanged messages write no application or status change |
| Sync.UpdateShape | app/routers/sync.py:139-155 | when the lookup finds the user's application in the thread and its status differs, an update changes its status and last email date and appends one change from the old to the new status; nothing else changes |
| Sync.UnchangedShape | app/routers/sync.py:139-141 | a thread whose application already has the status changes nothing |
| Sync.CreateShape | app/routers/sync.py:156-181 | without a matching application, one is created with the details' fields or "Unknown", together with one change that has no previous status |
| Sync.CreatedIsFound | app/routers/sync.py:129-137 | a created application is what the next message of the same thread finds |
| Sync.RunKeepsLedger | app/routers/sync.py:109-114 | a run never forgets or rewrites a ledger entry |
| Sync.RunSettles | app/routers/sync.py:85-117 | after a run, each of its messages is in the ledger or has no content |
| Sync.RunOverSettled | app/routers/sync.py:88-99 | a run over settled messages changes nothing and counts nothing |
| Sync.RunTwice | app/routers/sync.py:85-183 | re-running the same batch is a no-op |
| Sync.ReconcileKeepsUnique | app/routers/sync.py:129-181 | update-or-create keeps at most one application per user and non-empty thread id |
| Sync.StepKeepsUnique | app/routers/sync.py:85-181 | one message keeps the one-application-per-thread invariant |
| Sync.RunKeepsUnique | app/routers/sync.py:85-183 | a run keeps at most one application per user and non-empty thread id |
| Sync.CreatedIsAudited | app/routers/sync.py:171-178 | a new application with its initial change keeps the audit trail |
| Sync.UpdatedIsAudited | app/routers/sync.py:141-152 | a status move with its change row keeps the audit trail |
| Sync.CreateKeepsAudit | app/routers/sync.py:156-181 | creation keeps the audit trail |
| Sync.UpdateKeepsAudit | app/routers/sync.py:139-155 | an update keeps the audit trail |
| Sync.ReconcileKeepsAudit | app/routers/sync.py:139-181 | update-or-create keeps the audit trail |
| Sync.StepKeepsAudit | app/routers/sync.py:85-181 | one message keeps the audit trail |
| Sync.RunKeepsAudit | app/routers/sync.py:85-183 | after a run, every change belongs to an existing application, and each application's history starts with no previous status, moves to a different status at each row, and ends in its current status |
| Sync.RunTouchesOnlyUser | app/routers/sync.py:129-181 | a run modifies only the current user's applications, and every application it adds is theirs |
| Sync.ProcessMessage | app/routers/sync.py:85-181 | the loop body computes one step on the store |
| Sync.ApplyDetails | app/routers/sync.py:125-181 | the update-or-create code computes the reconciliation on the store |
| Sync.SyncMessages | app/routers/sync.py:82-181 | the loop with its two counters computes the run over all fetched messages |
| Sync.RunSync | app/routers/sync.py:62-188 | the route stops without writing when Gmail is not configured or authentication fails; otherwise it runs over the fetched messages with the email classifier, and the store and counters are those of the run |

## Left out

- Network, OAuth and the model API are not modelled. Their answers are inputs:
  - Gmail's messages.list answer per label id;
  - the labels.list answer;
  - the messages.get answer per message id;
  - the outcome of authentication;
  - the model's reply per message.
- Authentication internals are not modelled: the token file, refresh, the
  OAuth flow and building the service.
- `is_openai_configured` (`app/services/classifier.py:176-178`) is read only
  by the `sync_status` page and is not modelled; it is the `client` field.
- `is_configured` of both services is a boolean input. The `sync_status` page
  and logging are not modelled.
- The `after:` query built from the clock and `since_hours`, and the
  `max_results` cap, are left inside the messages.list answer, which is an
  input.
- Base64 and UTF-8 decoding are a function parameter, `decode`.
- `datetime.fromtimestamp` is not modelled: a date is the internal date in
  milliseconds, absent when zero. `datetime.utcnow()` is the `now` input.
- Case mapping (`lower`, `upper`, `title`) is modelled for ASCII letters only.
  There is no Unicode case mapping.
- `Strings.SplitLines`: every line-break character ends a line, so "\r\n" gives
  one extra empty line and a final break gives a trailing empty line. The reply
  parser ignores both, as they have no ':'.
- The SQL session is the `Store`, written through directly.
  - The single final commit is not modelled.
  - The rollback of a failed run is not modelled.
  - The database id of an application is its index.
  - `.first()` is taken as the lowest index.
- One run sees one labels.list answer. Every get_labels call in a run that finds
  nothing cached is given the same answer.
- `RunSync` takes the messages.get answer for each id as its input `raw`. The
  content each message gets is `Gmail.ContentOf`: what `GetMessageContent`
  returns on the authenticated service.
- The sync loop does not call the `EmailClassifier` methods. It consults the
  classifier through `EmailJudge`, which is built from `Classifier.Related` and
  `Classifier.Classify`, the functions those methods are proved to compute.
- `StatusChange` has no `changed_at` timestamp, and `ProcessedEmail` has no
  processed timestamp.
