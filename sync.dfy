/**
 * The reconciliation loop of the sync route (app/routers/sync.py): each
 * fetched message is checked against the processed-message ledger,
 * classified, and either updates the status of the application that owns
 * its thread or creates a new application, with a status-change row for
 * every status an application takes.
 */
module Sync {
  import opened Options
  import opened Strings
  import Classifier
  import Gmail

  /** The lifecycle status of an application. */
  datatype Status = Applied | Screening | Interviewing | Offer | Declined | Withdrawn | Accepted

  /** The value stored for each status. */
  function StatusName(s: Status): string
  {
    match s
    case Applied => "applied"
    case Screening => "screening"
    case Interviewing => "interviewing"
    case Offer => "offer"
    case Declined => "declined"
    case Withdrawn => "withdrawn"
    case Accepted => "accepted"
  }

  /** STATUS_MAP: the six statuses a classifier may report; "accepted" is not among them. */
  const StatusMap: map<string, Status> := map[
    "applied" := Applied,
    "screening" := Screening,
    "interviewing" := Interviewing,
    "offer" := Offer,
    "declined" := Declined,
    "withdrawn" := Withdrawn
  ]

  /**
   * `STATUS_MAP.get(text.lower(), APPLIED)`: the status whose name is the
   * lower-cased text, or Applied for any text that names none of the six.
   */
  function StatusFor(text: string): (s: Status)
    ensures s != Accepted
    ensures Lower(text) in StatusMap ==> StatusName(s) == Lower(text)
    ensures Lower(text) !in StatusMap ==> s == Applied
  {
    var key := Lower(text);
    if key in StatusMap then StatusMap[key] else Applied
  }

  /** Every status but Accepted is reached from its own name, in any case. */
  lemma StatusForName(s: Status)
    requires s != Accepted
    ensures StatusFor(StatusName(s)) == s
  {
    LowerOfLowerCase(StatusName(s));
  }

  /** `dict.get(key, default)` on the classifier's details. */
  function Get(details: Classifier.Details, key: string, default: string): string
  {
    if key in details then details[key] else default
  }

  type UserId = int

  datatype Application = Application(
    user: UserId, company: string, jobTitle: string, location: string, status: Status,
    threadId: string, lastEmailDate: Option<int>, appliedDate: int)

  /** A row of the audit trail; `app` is the application's index in the store. */
  datatype StatusChange = StatusChange(app: nat, oldStatus: Option<Status>, newStatus: Status, source: string)

  /**
   * The state of the store: the processed-message ledger (message id to
   * its relatedness verdict, shared by all users), the applications (an
   * application's id is its index) and the append-only status changes.
   */
  datatype Db = Db(processed: map<string, bool>, apps: seq<Application>, changes: seq<StatusChange>)

  /**
   * The two classifier calls of the loop, per message id and content: the
   * relatedness verdict and the extracted details (None when there are none).
   */
  datatype Judge = Judge(
    related: (string, Gmail.Content) -> bool,
    classify: (string, Gmail.Content) -> Option<Classifier.Details>)

  /**
   * The judge the route uses: the email classifier, with or without a model
   * client, given the model's replies for the relatedness and classification
   * calls on each message id (None when the call raises).
   */
  function EmailJudge(hasClient: bool, relatedReply: string -> Option<string>, classifyReply: string -> Option<string>): Judge
  {
    Judge(
      (id: string, c: Gmail.Content) => Classifier.Related(hasClient, c.sender, c.subject, c.snippet, relatedReply(id)),
      (id: string, c: Gmail.Content) => Classifier.Classify(hasClient, c.sender, c.subject, c.body, classifyReply(id)))
  }

  /**
   * What the loop consults besides the store: the current user, the clock
   * (for applied_date), the message contents (None when the fetch fails)
   * and the classifier.
   */
  datatype Env = Env(user: UserId, now: int, content: string -> Option<Gmail.Content>, judge: Judge)

  /** What happened to one message. */
  datatype Outcome = AlreadyProcessed | NoContent | NotJob | NoDetails | Unchanged | Updated | Created

  // ---------------------------------------------------------------------------
  // The thread lookup
  // ---------------------------------------------------------------------------

  /** The first of the first `n` applications of `user` in `thread`. */
  function FindThread(apps: seq<Application>, user: UserId, thread: string, n: nat): (r: Option<nat>)
    requires n <= |apps|
    ensures r.None? ==> forall k :: 0 <= k < n ==> !(apps[k].user == user && apps[k].threadId == thread)
    ensures r.Some? ==> r.value < n && apps[r.value].user == user && apps[r.value].threadId == thread
    ensures r.Some? ==> forall k :: 0 <= k < r.value ==> !(apps[k].user == user && apps[k].threadId == thread)
  {
    if n == 0 then None
    else
      match FindThread(apps, user, thread, n - 1)
      case Some(k) => Some(k)
      case None => if apps[n - 1].user == user && apps[n - 1].threadId == thread then Some(n - 1) else None
  }

  /**
   * The application a message updates: looked up only for a non-empty thread
   * id, among the user's own; the first one when there are several.
   */
  function Lookup(apps: seq<Application>, user: UserId, thread: string): (r: Option<nat>)
    ensures thread == "" ==> r.None?
    ensures thread != "" ==>
      (r.None? <==> forall k :: 0 <= k < |apps| ==> !(apps[k].user == user && apps[k].threadId == thread))
    ensures r.Some? ==> r.value < |apps| && apps[r.value].user == user && apps[r.value].threadId == thread
    ensures r.Some? ==> forall k :: 0 <= k < r.value ==> !(apps[k].user == user && apps[k].threadId == thread)
  {
    if thread == "" then None else FindThread(apps, user, thread, |apps|)
  }

  // ---------------------------------------------------------------------------
  // One message, and a run
  // ---------------------------------------------------------------------------

  /** The application created for a message without one. */
  function NewApplication(user: UserId, now: int, c: Gmail.Content, details: Classifier.Details, status: Status): Application
  {
    Application(
      user,
      Get(details, "company", Classifier.Unknown),
      Get(details, "job_title", Classifier.Unknown),
      Get(details, "location", Classifier.Unknown),
      status, c.threadId, c.date,
      match c.date case Some(d) => d case None => now)
  }

  /** The update-or-create part of one message, once its details are known. */
  function Reconcile(db: Db, user: UserId, now: int, c: Gmail.Content, details: Classifier.Details): (r: (Db, Outcome))
    ensures r.0.processed == db.processed
    ensures r.1 in {Unchanged, Updated, Created}
    ensures r.1 == Created <==> Lookup(db.apps, user, c.threadId).None?
    ensures |r.0.apps| == |db.apps| + if r.1 == Created then 1 else 0
    ensures |r.0.changes| == |db.changes| + if r.1 == Unchanged then 0 else 1
    ensures forall k :: 0 <= k < |db.apps| ==>
      r.0.apps[k].user == db.apps[k].user && r.0.apps[k].threadId == db.apps[k].threadId
    ensures forall k :: 0 <= k < |db.apps| && db.apps[k].user != user ==> r.0.apps[k] == db.apps[k]
    ensures forall k :: |db.apps| <= k < |r.0.apps| ==> r.0.apps[k].user == user
  {
    var status := StatusFor(Get(details, "status", "applied"));
    match Lookup(db.apps, user, c.threadId)
    case Some(k) =>
      var app := db.apps[k];
      if app.status == status then (db, Unchanged)
      else
        (db.(apps := db.apps[k := app.(status := status, lastEmailDate := c.date)],
             changes := db.changes + [StatusChange(k, Some(app.status), status, "email")]),
         Updated)
    case None =>
      (db.(apps := db.apps + [NewApplication(user, now, c, details, status)],
           changes := db.changes + [StatusChange(|db.apps|, None, status, "email")]),
       Created)
  }

  /** One pass of the loop body for message `id`. */
  function Step(db: Db, env: Env, id: string): (r: (Db, Outcome))
    ensures r.1 in {AlreadyProcessed, NoContent} ==> r.0 == db
    ensures id in r.0.processed || env.content(id).None?
    ensures forall x :: x in db.processed ==> x in r.0.processed && r.0.processed[x] == db.processed[x]
    ensures |r.0.apps| == |db.apps| + if r.1 == Created then 1 else 0
    ensures |r.0.changes| == |db.changes| + if r.1 in {Updated, Created} then 1 else 0
    ensures forall k :: 0 <= k < |db.apps| ==>
      r.0.apps[k].user == db.apps[k].user && r.0.apps[k].threadId == db.apps[k].threadId
    ensures forall k :: 0 <= k < |db.apps| && db.apps[k].user != env.user ==> r.0.apps[k] == db.apps[k]
    ensures forall k :: |db.apps| <= k < |r.0.apps| ==> r.0.apps[k].user == env.user
  {
    if id in db.processed then (db, AlreadyProcessed)
    else
      match env.content(id)
      case None => (db, NoContent)
      case Some(c) =>
        var isJob := env.judge.related(id, c);
        var recorded := db.(processed := db.processed[id := isJob]);
        if !isJob then (recorded, NotJob)
        else
          match env.judge.classify(id, c)
          case None => (recorded, NoDetails)
          case Some(details) => Reconcile(recorded, env.user, env.now, c, details)
  }

  datatype RunState = RunState(db: Db, created: nat, updated: nat)

  /**
   * The loop over the first `n` messages, with the two counters. Every
   * created application and every update adds exactly one status change.
   */
  function Run(db: Db, env: Env, messages: seq<Gmail.MessageRef>, n: nat): (r: RunState)
    requires n <= |messages|
    ensures r.created + r.updated <= n
    ensures |r.db.apps| == |db.apps| + r.created
    ensures |r.db.changes| == |db.changes| + r.created + r.updated
  {
    if n == 0 then RunState(db, 0, 0)
    else
      var before := Run(db, env, messages, n - 1);
      Advance(before, Step(before.db, env, messages[n - 1].id))
  }

  /** The run state after one more message with the given result. */
  function Advance(s: RunState, step: (Db, Outcome)): RunState
  {
    RunState(step.0,
             s.created + if step.1 == Created then 1 else 0,
             s.updated + if step.1 == Updated then 1 else 0)
  }

  // ---------------------------------------------------------------------------
  // Properties of one message
  // ---------------------------------------------------------------------------

  /** A message already in the ledger changes nothing. */
  lemma SkipsProcessed(db: Db, env: Env, id: string)
    requires id in db.processed
    ensures Step(db, env, id) == (db, AlreadyProcessed)
  {
  }

  /** A message whose content cannot be fetched is not recorded, so a later run retries it. */
  lemma SkipsMissingContent(db: Db, env: Env, id: string)
    requires id !in db.processed && env.content(id).None?
    ensures Step(db, env, id) == (db, NoContent)
  {
  }

  /**
   * Every other message is recorded once, with the relatedness verdict,
   * whatever the classification then gives.
   */
  lemma RecordsVerdict(db: Db, env: Env, id: string)
    requires id !in db.processed && env.content(id).Some?
    ensures var (after, outcome) := Step(db, env, id);
      after.processed == db.processed[id := env.judge.related(id, env.content(id).value)]
      && (outcome == NotJob <==> !env.judge.related(id, env.content(id).value))
  {
  }

  /**
   * A new message with content that the classifier calls related and for
   * which it gives details is recorded as related and then reconciled.
   */
  lemma ClassifiedIsReconciled(db: Db, env: Env, id: string)
    requires id !in db.processed && env.content(id).Some?
    requires env.judge.related(id, env.content(id).value)
    requires env.judge.classify(id, env.content(id).value).Some?
    ensures var c := env.content(id).value;
      Step(db, env, id)
      == Reconcile(db.(processed := db.processed[id := true]), env.user, env.now, c, env.judge.classify(id, c).value)
  {
  }

  /** A related message for which the classifier gives no details is only recorded. */
  lemma NoDetailsOnlyRecords(db: Db, env: Env, id: string)
    requires id !in db.processed && env.content(id).Some?
    requires env.judge.related(id, env.content(id).value)
    requires env.judge.classify(id, env.content(id).value).None?
    ensures Step(db, env, id) == (db.(processed := db.processed[id := true]), NoDetails)
  {
  }

  /** Only Updated and Created touch applications or status changes. */
  lemma OnlyUpdatesAndCreatesWrite(db: Db, env: Env, id: string)
    ensures var (after, outcome) := Step(db, env, id);
      outcome !in {Updated, Created} ==> after.apps == db.apps && after.changes == db.changes
  {
  }

  /**
   * A message whose thread has an application of the user with a different
   * status updates it: the status and last email date change, and one change
   * from the old status to the new one is appended.
   */
  lemma UpdateShape(db: Db, user: UserId, now: int, c: Gmail.Content, details: Classifier.Details)
    requires Lookup(db.apps, user, c.threadId).Some?
    requires db.apps[Lookup(db.apps, user, c.threadId).value].status != StatusFor(Get(details, "status", "applied"))
    ensures var (after, outcome) := Reconcile(db, user, now, c, details);
      var k := Lookup(db.apps, user, c.threadId).value;
      outcome == Updated
      && c.threadId != ""
      && |after.apps| == |db.apps|
      && after.apps[k].status == StatusFor(Get(details, "status", "applied"))
      && after.apps[k].status != db.apps[k].status
      && after.apps[k].lastEmailDate == c.date
      && after.apps[k].user == db.apps[k].user && after.apps[k].threadId == db.apps[k].threadId
      && (forall j :: 0 <= j < |db.apps| && j != k ==> after.apps[j] == db.apps[j])
      && after.changes == db.changes + [StatusChange(k, Some(db.apps[k].status), after.apps[k].status, "email")]
  {
  }

  /** A message whose thread's application already has the status changes nothing. */
  lemma UnchangedShape(db: Db, user: UserId, now: int, c: Gmail.Content, details: Classifier.Details)
    requires Lookup(db.apps, user, c.threadId).Some?
    requires db.apps[Lookup(db.apps, user, c.threadId).value].status == StatusFor(Get(details, "status", "applied"))
    ensures Reconcile(db, user, now, c, details) == (db, Unchanged)
  {
  }

  /**
   * Without a thread id, or with none of the user's applications in the
   * thread, a new application is created with the details' fields (or
   * 'Unknown') and one change with no previous status.
   */
  lemma CreateShape(db: Db, user: UserId, now: int, c: Gmail.Content, details: Classifier.Details)
    requires Lookup(db.apps, user, c.threadId).None?
    ensures var (after, outcome) := Reconcile(db, user, now, c, details);
      var app := after.apps[|db.apps|];
      outcome == Created
      && after.apps == db.apps + [app]
      && app.user == user && app.threadId == c.threadId
      && app.company == Get(details, "company", "Unknown")
      && app.jobTitle == Get(details, "job_title", "Unknown")
      && app.location == Get(details, "location", "Unknown")
      && app.status == StatusFor(Get(details, "status", "applied"))
      && after.changes == db.changes + [StatusChange(|db.apps|, None, app.status, "email")]
  {
  }

  /** A created application in a thread is what the next message of that thread finds. */
  lemma CreatedIsFound(db: Db, user: UserId, now: int, c: Gmail.Content, details: Classifier.Details)
    requires Lookup(db.apps, user, c.threadId).None? && c.threadId != ""
    ensures Lookup(Reconcile(db, user, now, c, details).0.apps, user, c.threadId) == Some(|db.apps|)
  {
    var apps := Reconcile(db, user, now, c, details).0.apps;
    assert apps[..|db.apps|] == db.apps;
    assert forall k :: 0 <= k < |db.apps| ==> apps[k] == db.apps[k];
  }

  // ---------------------------------------------------------------------------
  // Properties of a run
  // ---------------------------------------------------------------------------

  /** A run never forgets or rewrites a ledger entry. */
  lemma {:induction false} RunKeepsLedger(db: Db, env: Env, messages: seq<Gmail.MessageRef>, n: nat)
    requires n <= |messages|
    ensures forall id :: id in db.processed ==>
      id in Run(db, env, messages, n).db.processed
      && Run(db, env, messages, n).db.processed[id] == db.processed[id]
  {
    if n > 0 {
      RunKeepsLedger(db, env, messages, n - 1);
    }
  }

  /** After a run, each of its messages is in the ledger or has no content. */
  lemma {:induction false} RunSettles(db: Db, env: Env, messages: seq<Gmail.MessageRef>, n: nat)
    requires n <= |messages|
    ensures forall i :: 0 <= i < n ==>
      messages[i].id in Run(db, env, messages, n).db.processed || env.content(messages[i].id).None?
  {
    if n > 0 {
      RunSettles(db, env, messages, n - 1);
    }
  }

  /** A run over messages that are all settled changes nothing and counts nothing. */
  lemma {:induction false} RunOverSettled(db: Db, env: Env, messages: seq<Gmail.MessageRef>, n: nat)
    requires n <= |messages|
    requires forall i :: 0 <= i < n ==> messages[i].id in db.processed || env.content(messages[i].id).None?
    ensures Run(db, env, messages, n) == RunState(db, 0, 0)
  {
    if n > 0 {
      RunOverSettled(db, env, messages, n - 1);
    }
  }

  /** Idempotence: a second run over the same batch changes nothing and counts nothing. */
  lemma RunTwice(db: Db, env: Env, messages: seq<Gmail.MessageRef>)
    ensures var once := Run(db, env, messages, |messages|).db;
      Run(once, env, messages, |messages|) == RunState(once, 0, 0)
  {
    RunSettles(db, env, messages, |messages|);
    RunOverSettled(Run(db, env, messages, |messages|).db, env, messages, |messages|);
  }

  /** At most one application per (user, non-empty thread id). */
  ghost predicate UniqueThreads(apps: seq<Application>)
  {
    forall i, j :: 0 <= i < j < |apps| && apps[i].user == apps[j].user && apps[i].threadId != "" ==>
      apps[i].threadId != apps[j].threadId
  }

  lemma ReconcileKeepsUnique(db: Db, user: UserId, now: int, c: Gmail.Content, details: Classifier.Details)
    requires UniqueThreads(db.apps)
    ensures UniqueThreads(Reconcile(db, user, now, c, details).0.apps)
  {
    var (after, outcome) := Reconcile(db, user, now, c, details);
    var apps := after.apps;
    if Lookup(db.apps, user, c.threadId).None? {
      CreateShape(db, user, now, c, details);
      forall i, j | 0 <= i < j < |apps| && apps[i].user == apps[j].user && apps[i].threadId != ""
        ensures apps[i].threadId != apps[j].threadId
      {
        if j == |db.apps| {
          assert apps[i] == db.apps[i];
        }
      }
    } else {
      assert forall k :: 0 <= k < |apps| ==> apps[k].user == db.apps[k].user && apps[k].threadId == db.apps[k].threadId;
    }
  }

  lemma StepKeepsUnique(db: Db, env: Env, id: string)
    requires UniqueThreads(db.apps)
    ensures UniqueThreads(Step(db, env, id).0.apps)
  {
    if id !in db.processed && env.content(id).Some? {
      var c := env.content(id).value;
      var recorded := db.(processed := db.processed[id := env.judge.related(id, c)]);
      if env.judge.related(id, c) && env.judge.classify(id, c).Some? {
        ReconcileKeepsUnique(recorded, env.user, env.now, c, env.judge.classify(id, c).value);
      }
    }
  }

  /** A run keeps at most one application per (user, non-empty thread id). */
  lemma {:induction false} RunKeepsUnique(db: Db, env: Env, messages: seq<Gmail.MessageRef>, n: nat)
    requires n <= |messages| && UniqueThreads(db.apps)
    ensures UniqueThreads(Run(db, env, messages, n).db.apps)
  {
    if n > 0 {
      RunKeepsUnique(db, env, messages, n - 1);
      StepKeepsUnique(Run(db, env, messages, n - 1).db, env, messages[n - 1].id);
    }
  }

  /** The changes among the first `n` that belong to application `k`, in order. */
  function History(changes: seq<StatusChange>, k: nat, n: nat): seq<StatusChange>
    requires n <= |changes|
  {
    if n == 0 then []
    else History(changes, k, n - 1) + if changes[n - 1].app == k then [changes[n - 1]] else []
  }

  /** A history starts without a previous status and each row continues from the one before to a different status. */
  ghost predicate Chained(h: seq<StatusChange>)
  {
    |h| > 0 && h[0].oldStatus.None?
    && forall i :: 0 < i < |h| ==> h[i].oldStatus == Some(h[i - 1].newStatus) && h[i].newStatus != h[i - 1].newStatus
  }

  /**
   * The audit trail: every change belongs to an existing application, and
   * every application's history is chained and ends in its current status.
   */
  ghost predicate Audited(db: Db)
  {
    (forall c :: 0 <= c < |db.changes| ==> db.changes[c].app < |db.apps|)
    && forall k :: 0 <= k < |db.apps| ==>
      var h := History(db.changes, k, |db.changes|);
      Chained(h) && h[|h| - 1].newStatus == db.apps[k].status
  }

  lemma {:induction false} HistoryPrefix(changes: seq<StatusChange>, more: seq<StatusChange>, k: nat, n: nat)
    requires n <= |changes|
    ensures History(changes + more, k, n) == History(changes, k, n)
  {
    if n > 0 {
      HistoryPrefix(changes, more, k, n - 1);
      assert (changes + more)[n - 1] == changes[n - 1];
    }
  }

  /** Appending a change extends exactly the history of its application. */
  lemma HistorySnoc(changes: seq<StatusChange>, c: StatusChange, k: nat)
    ensures History(changes + [c], k, |changes| + 1)
         == History(changes, k, |changes|) + if c.app == k then [c] else []
  {
    HistoryPrefix(changes, [c], k, |changes|);
    assert (changes + [c])[|changes|] == c;
  }

  /** An application no change refers to has an empty history. */
  lemma {:induction false} HistoryOfNewcomer(changes: seq<StatusChange>, k: nat, n: nat)
    requires n <= |changes|
    requires forall c :: 0 <= c < n ==> changes[c].app < k
    ensures History(changes, k, n) == []
  {
    if n > 0 {
      HistoryOfNewcomer(changes, k, n - 1);
    }
  }

  /** Appending a new application with one change that has no previous status keeps the audit trail. */
  lemma CreatedIsAudited(db: Db, app: Application)
    requires Audited(db)
    ensures Audited(db.(apps := db.apps + [app],
                        changes := db.changes + [StatusChange(|db.apps|, None, app.status, "email")]))
  {
    var change := StatusChange(|db.apps|, None, app.status, "email");
    var after := db.(apps := db.apps + [app], changes := db.changes + [change]);
    forall k | 0 <= k < |after.apps|
      ensures var h := History(after.changes, k, |after.changes|);
        Chained(h) && h[|h| - 1].newStatus == after.apps[k].status
    {
      HistorySnoc(db.changes, change, k);
      if k == |db.apps| {
        HistoryOfNewcomer(db.changes, k, |db.changes|);
      } else {
        assert after.apps[k] == db.apps[k];
      }
    }
  }

  /** Moving application `k` to a different status with one change from the old status keeps the audit trail. */
  lemma UpdatedIsAudited(db: Db, k: nat, status: Status, date: Option<int>)
    requires Audited(db) && k < |db.apps| && status != db.apps[k].status
    ensures Audited(db.(apps := db.apps[k := db.apps[k].(status := status, lastEmailDate := date)],
                        changes := db.changes + [StatusChange(k, Some(db.apps[k].status), status, "email")]))
  {
    var change := StatusChange(k, Some(db.apps[k].status), status, "email");
    var after := db.(apps := db.apps[k := db.apps[k].(status := status, lastEmailDate := date)],
                     changes := db.changes + [change]);
    forall j | 0 <= j < |after.apps|
      ensures var h := History(after.changes, j, |after.changes|);
        Chained(h) && h[|h| - 1].newStatus == after.apps[j].status
    {
      HistorySnoc(db.changes, change, j);
      if j != k {
        assert after.apps[j] == db.apps[j];
      }
    }
  }

  lemma CreateKeepsAudit(db: Db, user: UserId, now: int, c: Gmail.Content, details: Classifier.Details)
    requires Audited(db) && Lookup(db.apps, user, c.threadId).None?
    ensures Audited(Reconcile(db, user, now, c, details).0)
  {
    var status := StatusFor(Get(details, "status", "applied"));
    CreatedIsAudited(db, NewApplication(user, now, c, details, status));
  }

  lemma UpdateKeepsAudit(db: Db, user: UserId, now: int, c: Gmail.Content, details: Classifier.Details)
    requires Audited(db) && Lookup(db.apps, user, c.threadId).Some?
    requires db.apps[Lookup(db.apps, user, c.threadId).value].status != StatusFor(Get(details, "status", "applied"))
    ensures Audited(Reconcile(db, user, now, c, details).0)
  {
    var k := Lookup(db.apps, user, c.threadId).value;
    UpdatedIsAudited(db, k, StatusFor(Get(details, "status", "applied")), c.date);
  }

  lemma ReconcileKeepsAudit(db: Db, user: UserId, now: int, c: Gmail.Content, details: Classifier.Details)
    requires Audited(db)
    ensures Audited(Reconcile(db, user, now, c, details).0)
  {
    if Lookup(db.apps, user, c.threadId).None? {
      CreateKeepsAudit(db, user, now, c, details);
    } else if db.apps[Lookup(db.apps, user, c.threadId).value].status != StatusFor(Get(details, "status", "applied")) {
      UpdateKeepsAudit(db, user, now, c, details);
    }
  }

  lemma StepKeepsAudit(db: Db, env: Env, id: string)
    requires Audited(db)
    ensures Audited(Step(db, env, id).0)
  {
    if id !in db.processed && env.content(id).Some? {
      var c := env.content(id).value;
      var isJob := env.judge.related(id, c);
      var recorded := db.(processed := db.processed[id := isJob]);
      assert Audited(recorded);
      if isJob {
        match env.judge.classify(id, c)
        case None =>
        case Some(details) =>
          ReconcileKeepsAudit(recorded, env.user, env.now, c, details);
      }
    }
  }

  /** A run keeps the audit trail: every status an application holds is recorded, in order. */
  lemma {:induction false} RunKeepsAudit(db: Db, env: Env, messages: seq<Gmail.MessageRef>, n: nat)
    requires n <= |messages| && Audited(db)
    ensures Audited(Run(db, env, messages, n).db)
  {
    if n > 0 {
      RunKeepsAudit(db, env, messages, n - 1);
      StepKeepsAudit(Run(db, env, messages, n - 1).db, env, messages[n - 1].id);
    }
  }

  /** A run writes only the current user's applications, and every application it adds is theirs. */
  lemma {:induction false} RunTouchesOnlyUser(db: Db, env: Env, messages: seq<Gmail.MessageRef>, n: nat)
    requires n <= |messages|
    ensures var after := Run(db, env, messages, n).db.apps;
      (forall k :: 0 <= k < |db.apps| && db.apps[k].user != env.user ==> after[k] == db.apps[k])
      && (forall k :: |db.apps| <= k < |after| ==> after[k].user == env.user)
  {
    if n > 0 {
      RunTouchesOnlyUser(db, env, messages, n - 1);
    }
  }

  // ---------------------------------------------------------------------------
  // The route
  // ---------------------------------------------------------------------------

  /** The database session: the ledger, the applications and the status changes. */
  class Store {
    var processed: map<string, bool>
    var apps: seq<Application>
    var changes: seq<StatusChange>

    constructor(db: Db)
      ensures State() == db
    {
      processed := db.processed;
      apps := db.apps;
      changes := db.changes;
    }

    function State(): Db
      reads this
    {
      Db(processed, apps, changes)
    }
  }

  /** How run_sync ends: a redirect for a missing configuration or failed authentication, or the two counters. */
  datatype SyncResult = NotConfigured | AuthFailed | Synced(created: nat, updated: nat)

  /** The loop body of run_sync for message `id`. */
  method ProcessMessage(store: Store, env: Env, id: string) returns (outcome: Outcome)
    modifies store
    ensures (store.State(), outcome) == Step(old(store.State()), env, id)
  {
    if id in store.processed {
      return AlreadyProcessed;
    }
    var fetched := env.content(id);
    if fetched.None? {
      return NoContent;
    }
    var c := fetched.value;
    var isJob := env.judge.related(id, c);
    store.processed := store.processed[id := isJob];
    if !isJob {
      return NotJob;
    }
    var details := env.judge.classify(id, c);
    if details.None? {
      return NoDetails;
    }
    outcome := ApplyDetails(store, env.user, env.now, c, details.value);
  }

  /** The status update or creation that follows a successful classification. */
  method ApplyDetails(store: Store, user: UserId, now: int, c: Gmail.Content, details: Classifier.Details)
    returns (outcome: Outcome)
    modifies store
    ensures (store.State(), outcome) == Reconcile(old(store.State()), user, now, c, details)
  {
    var status := StatusFor(Get(details, "status", "applied"));
    var existing := Lookup(store.apps, user, c.threadId);
    if existing.Some? {
      var k := existing.value;
      var app := store.apps[k];
      if app.status != status {
        store.apps := store.apps[k := app.(status := status, lastEmailDate := c.date)];
        store.changes := store.changes + [StatusChange(k, Some(app.status), status, "email")];
        return Updated;
      }
      return Unchanged;
    }
    var app := NewApplication(user, now, c, details, status);
    store.changes := store.changes + [StatusChange(|store.apps|, None, status, "email")];
    store.apps := store.apps + [app];
    return Created;
  }

  /** One more message advances the run by that message's step. */
  lemma RunNext(db: Db, env: Env, messages: seq<Gmail.MessageRef>, i: nat, after: Db, outcome: Outcome)
    requires i < |messages|
    requires (after, outcome) == Step(Run(db, env, messages, i).db, env, messages[i].id)
    ensures Run(db, env, messages, i + 1) == Advance(Run(db, env, messages, i), (after, outcome))
  {
  }

  /** The `for msg in messages` loop of run_sync with its two counters. */
  method SyncMessages(store: Store, env: Env, messages: seq<Gmail.MessageRef>) returns (created: nat, updated: nat)
    modifies store
    ensures Run(old(store.State()), env, messages, |messages|) == RunState(store.State(), created, updated)
  {
    ghost var start := store.State();
    created, updated := 0, 0;
    for i := 0 to |messages|
      invariant Run(start, env, messages, i) == RunState(store.State(), created, updated)
    {
      var outcome := ProcessMessage(store, env, messages[i].id);
      RunNext(start, env, messages, i, store.State(), outcome);
      if outcome == Created {
        created := created + 1;
      } else if outcome == Updated {
        updated := updated + 1;
      }
    }
  }

  /**
   * run_sync: stops when Gmail is not configured or authentication fails;
   * otherwise fetches the messages of the configured labels, processes them
   * in order with the email classifier and reports how many applications it
   * created and updated. The Gmail and model answers are inputs: `list` per
   * label id, `raw` per message id, and the model's two replies per message id.
   */
  method RunSync(
    store: Store, gmail: Gmail.GmailService, clf: Classifier.EmailClassifier,
    configured: bool, authOk: bool, config: string, labelsResponse: Option<seq<Gmail.Label>>,
    list: string -> Option<seq<Gmail.MessageRef>>, raw: string -> Option<Gmail.RawMessage>,
    decode: string -> string, user: UserId, now: int,
    relatedReply: string -> Option<string>, classifyReply: string -> Option<string>)
    returns (r: SyncResult)
    modifies store, gmail
    ensures !configured ==> r == NotConfigured && store.State() == old(store.State())
    ensures configured && !authOk ==> r == AuthFailed && store.State() == old(store.State())
    ensures configured && authOk ==>
      var messages := Gmail.Fetched(Gmail.ParseLabelList(config), Gmail.EffectiveLabels(old(gmail.labelsCache), labelsResponse), list);
      var env := Env(user, now, id => Gmail.ContentOf(id, raw(id), decode), EmailJudge(clf.client, relatedReply, classifyReply));
      var run := Run(old(store.State()), env, messages, |messages|);
      r == Synced(run.created, run.updated) && store.State() == run.db
  {
    if !configured {
      return NotConfigured;
    }
    var ok := gmail.Authenticate(authOk);
    if !ok {
      return AuthFailed;
    }
    var messages := gmail.FetchMessages(None, config, authOk, labelsResponse, list);
    var env := Env(user, now, id => Gmail.ContentOf(id, raw(id), decode), EmailJudge(clf.client, relatedReply, classifyReply));
    var created, updated := SyncMessages(store, env, messages);
    return Synced(created, updated);
  }
}
