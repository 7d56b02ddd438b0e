/**
 * Email classification (app/services/classifier.py): the keyword classifier
 * as pure functions, and the two-stage EmailClassifier that asks a language
 * model only when the keywords miss and falls back to them on any failure.
 * A model reply is an input: `Some(text)` is what the completion call
 * returned and `None` stands for a call (or a use of its result) that raised.
 */
module Classifier {
  import opened Options
  import opened Strings

  // ---------------------------------------------------------------------------
  // Keyword lists (classifier.py lines 17-46)
  // ---------------------------------------------------------------------------

  const JobSenders: seq<string> := [
    "linkedin", "indeed", "glassdoor", "ziprecruiter", "monster", "dice",
    "greenhouse.io", "lever.co", "workday", "icims", "jobvite", "smartrecruiters",
    "breezy.hr", "ashbyhq", "jazz.co", "applytojob", "myworkdayjobs",
    "taleo", "successfactors", "ultipro", "adp", "bamboohr"
  ]

  const JobSenderPrefixes: seq<string> := [
    "hr@", "recruiting@", "careers@", "talent@", "jobs@", "hiring@",
    "recruitment@", "noreply@", "no-reply@", "apply@", "applications@"
  ]

  const JobSubjectKeywords: seq<string> := [
    "application", "interview", "position", "role", "opportunity", "candidate",
    "job", "offer", "hiring", "apply", "applied", "resume", "cv",
    "thank you for applying", "next steps", "schedule", "assessment",
    "phone screen", "technical interview", "onsite", "final round"
  ]

  const JobBodyKeywords: seq<string> := [
    "thank you for your interest", "received your application",
    "reviewed your application", "reviewed your resume", "your application for",
    "we regret to inform", "moving forward with other candidates",
    "unfortunately", "not moving forward", "position has been filled",
    "pleased to invite", "schedule an interview", "next steps in our process",
    "would like to schedule", "technical assessment", "coding challenge",
    "offer of employment", "pleased to offer", "job offer",
    "excited to extend", "compensation package", "start date",
    "background check", "reference check", "onboarding"
  ]

  // ---------------------------------------------------------------------------
  // Relatedness (KeywordClassifier.is_job_related)
  // ---------------------------------------------------------------------------

  /** Some entry of `keys` is a substring of `text`. */
  function AnyOccurs(text: string, keys: seq<string>): (b: bool)
    ensures b <==> exists k :: 0 <= k < |keys| && Contains(text, keys[k])
  {
    if keys == [] then false
    else Contains(text, keys[0]) || AnyOccurs(text, keys[1..])
  }

  /** `sum(1 for kw in keys if kw in text)` */
  function CountOccurring(text: string, keys: seq<string>): (n: nat)
    ensures n <= |keys|
  {
    if keys == [] then 0
    else (if Contains(text, keys[0]) then 1 else 0) + CountOccurring(text, keys[1..])
  }

  /** The count is zero exactly when no entry occurs. */
  lemma {:induction false} CountZeroMeansNone(text: string, keys: seq<string>)
    ensures CountOccurring(text, keys) == 0 <==> !AnyOccurs(text, keys)
  {
    if keys != [] {
      CountZeroMeansNone(text, keys[1..]);
    }
  }

  /** Two different positions of `keys` both name substrings of `text`. */
  ghost predicate TwoHits(text: string, keys: seq<string>)
  {
    exists i, j :: 0 <= i < j < |keys| && Contains(text, keys[i]) && Contains(text, keys[j])
  }

  /** The count reaches two exactly when two different entries occur. */
  lemma {:induction false} CountReachesTwo(text: string, keys: seq<string>)
    ensures CountOccurring(text, keys) >= 2 <==> TwoHits(text, keys)
  {
    if keys != [] {
      var rest := keys[1..];
      CountReachesTwo(text, rest);
      if CountOccurring(text, keys) >= 2 {
        if Contains(text, keys[0]) && !TwoHits(text, rest) {
          assert CountOccurring(text, rest) >= 1;
          var j := CountPositive(text, rest);
          assert Contains(text, keys[j + 1]);
        }
        if !Contains(text, keys[0]) {
          var i, j :| 0 <= i < j < |rest| && Contains(text, rest[i]) && Contains(text, rest[j]);
          assert Contains(text, keys[i + 1]) && Contains(text, keys[j + 1]);
        } else if TwoHits(text, rest) {
          var i, j :| 0 <= i < j < |rest| && Contains(text, rest[i]) && Contains(text, rest[j]);
          assert Contains(text, keys[i + 1]) && Contains(text, keys[j + 1]);
        }
      }
      if TwoHits(text, keys) {
        var i, j :| 0 <= i < j < |keys| && Contains(text, keys[i]) && Contains(text, keys[j]);
        if i == 0 {
          assert Contains(text, rest[j - 1]);
          CountAtLeastOne(text, rest, j - 1);
        } else {
          assert Contains(text, rest[i - 1]) && Contains(text, rest[j - 1]);
        }
      }
    }
  }

  lemma {:induction false} CountPositive(text: string, keys: seq<string>) returns (k: nat)
    requires CountOccurring(text, keys) >= 1
    ensures k < |keys| && Contains(text, keys[k])
  {
    if Contains(text, keys[0]) {
      k := 0;
    } else {
      var j := CountPositive(text, keys[1..]);
      k := j + 1;
    }
  }

  lemma {:induction false} CountAtLeastOne(text: string, keys: seq<string>, k: nat)
    requires k < |keys| && Contains(text, keys[k])
    ensures CountOccurring(text, keys) >= 1
  {
    if k > 0 {
      CountAtLeastOne(text, keys[1..], k - 1);
    }
  }

  /**
   * KeywordClassifier.is_job_related: the lower-cased sender contains a
   * job-board fragment, or contains (anywhere, not only at the start) a
   * role-style prefix, or the lower-cased subject contains a lifecycle
   * keyword, or at least two body keywords occur in "subject snippet".
   */
  function KeywordRelated(sender: string, subject: string, snippet: string): (r: bool)
    ensures r <==>
      (exists k :: 0 <= k < |JobSenders| && Contains(Lower(sender), JobSenders[k]))
      || (exists k :: 0 <= k < |JobSenderPrefixes| && Contains(Lower(sender), JobSenderPrefixes[k]))
      || (exists k :: 0 <= k < |JobSubjectKeywords| && Contains(Lower(subject), JobSubjectKeywords[k]))
      || TwoHits(Combined(subject, snippet), JobBodyKeywords)
  {
    CountReachesTwo(Combined(subject, snippet), JobBodyKeywords);
    var senderLower := Lower(sender);
    var subjectLower := Lower(subject);
    var combined := subjectLower + " " + Lower(snippet);
    AnyOccurs(senderLower, JobSenders)
    || AnyOccurs(senderLower, JobSenderPrefixes)
    || AnyOccurs(subjectLower, JobSubjectKeywords)
    || CountOccurring(combined, JobBodyKeywords) >= 2
  }

  /** The text the body-keyword test scans. */
  function Combined(subject: string, snippet: string): string
  {
    Lower(subject) + " " + Lower(snippet)
  }

  /** No sender fragment, sender prefix or subject keyword occurs. */
  predicate NoHeaderHit(sender: string, subject: string)
  {
    !AnyOccurs(Lower(sender), JobSenders)
    && !AnyOccurs(Lower(sender), JobSenderPrefixes)
    && !AnyOccurs(Lower(subject), JobSubjectKeywords)
  }

  /** A job-board fragment in the sender decides relatedness on its own. */
  lemma SenderFragmentSuffices(sender: string, subject: string, snippet: string, k: nat)
    requires k < |JobSenders| && Contains(Lower(sender), JobSenders[k])
    ensures KeywordRelated(sender, subject, snippet)
  {
  }

  /**
   * The prefix test is a substring test: a role-style prefix anywhere in the
   * sender decides relatedness, whatever the subject and snippet say.
   */
  lemma PrefixAnywhereSuffices(sender: string, subject: string, snippet: string, k: nat, at: nat)
    requires k < |JobSenderPrefixes| && OccursAt(Lower(sender), JobSenderPrefixes[k], at)
    ensures KeywordRelated(sender, subject, snippet)
  {
  }

  /**
   * With no sender or subject hit, the message is related exactly when two
   * different body keywords occur in the combined text.
   */
  lemma BodyKeywordsNeedTwo(sender: string, subject: string, snippet: string)
    requires NoHeaderHit(sender, subject)
    ensures KeywordRelated(sender, subject, snippet) <==> TwoHits(Combined(subject, snippet), JobBodyKeywords)
  {
    CountReachesTwo(Combined(subject, snippet), JobBodyKeywords);
  }

  /** A single body keyword is not enough. */
  lemma OneBodyHitIsNotEnough(sender: string, subject: string, snippet: string)
    requires NoHeaderHit(sender, subject)
    requires CountOccurring(Combined(subject, snippet), JobBodyKeywords) <= 1
    ensures !KeywordRelated(sender, subject, snippet)
  {
  }

  // ---------------------------------------------------------------------------
  // Status detection (STATUS_PATTERNS, KeywordClassifier.detect_status)
  // ---------------------------------------------------------------------------

  /**
   * The two regular-expression shapes the status patterns use: a literal, or
   * `first.{0,gap}second` where `.` matches any character but a newline.
   */
  datatype Pattern = Lit(text: string) | Near(first: string, gap: nat, second: string)

  /** `first`, then at most `gap` non-newline characters, then `second`, starting at `i`. */
  predicate NearAt(s: string, first: string, gap: nat, second: string, i: int)
  {
    OccursAt(s, first, i)
    && exists j | i + |first| <= j <= i + |first| + gap ::
         OccursAt(s, second, j) && '\n' !in s[i + |first|..j]
  }

  /** `re.search(p, s) is not None` */
  predicate Matches(p: Pattern, s: string)
  {
    match p
    case Lit(t) => Contains(s, t)
    case Near(a, n, b) => exists i | 0 <= i <= |s| :: NearAt(s, a, n, b, i)
  }

  /** A `first.{0,gap}second` pattern matches only text that holds both words. */
  lemma NearNeedsBoth(first: string, gap: nat, second: string, s: string)
    requires Matches(Near(first, gap, second), s)
    ensures Contains(s, first) && Contains(s, second)
  {
    var i :| 0 <= i <= |s| && NearAt(s, first, gap, second, i);
    var j :| i + |first| <= j <= i + |first| + gap && OccursAt(s, second, j) && '\n' !in s[i + |first|..j];
    assert OccursAt(s, first, i);
  }

  /** The two words side by side match a `first.{0,gap}second` pattern, whatever the gap. */
  lemma AdjacentIsNear(first: string, gap: nat, second: string, s: string, i: nat)
    requires OccursAt(s, first, i) && OccursAt(s, second, i + |first|)
    ensures Matches(Near(first, gap, second), s)
  {
    assert s[i + |first|..i + |first|] == [];
    assert NearAt(s, first, gap, second, i);
  }

  /**
   * A line break between the two words defeats the pattern at that start:
   * `.` does not match a newline.
   */
  lemma NewlineBreaksNear(first: string, gap: nat, second: string, s: string, i: nat, b: nat)
    requires OccursAt(s, first, i) && i + |first| <= b < |s| && s[b] == '\n'
    requires forall j :: i + |first| <= j <= i + |first| + gap && OccursAt(s, second, j) ==> b < j
    ensures !NearAt(s, first, gap, second, i)
  {
  }

  datatype Category = Declined | Interviewing | Screening | Offer | Applied

  /** The status string detect_status returns for a category. */
  function Name(c: Category): (name: string)
    ensures name in StatusVocabulary
  {
    match c
    case Declined => "declined"
    case Interviewing => "interviewing"
    case Screening => "screening"
    case Offer => "offer"
    case Applied => "applied"
  }

  /** The declaration order of STATUS_PATTERNS, which is the priority order. */
  const Priority: seq<Category> := [Declined, Interviewing, Screening, Offer, Applied]

  /** The position of a category in Priority. */
  function Rank(c: Category): (k: nat)
    ensures k < |Priority| && Priority[k] == c
  {
    match c
    case Declined => 0
    case Interviewing => 1
    case Screening => 2
    case Offer => 3
    case Applied => 4
  }

  lemma RankOfPriority(k: nat)
    requires k < |Priority|
    ensures Rank(Priority[k]) == k
  {
    if k == 0 {
    } else if k == 1 {
    } else if k == 2 {
    } else if k == 3 {
    }
  }

  const DeclinedPatterns: seq<Pattern> := [
    Lit("regret to inform"), Lit("not moving forward"), Lit("other candidates"),
    Lit("unfortunately"), Lit("position has been filled"), Lit("decided not to"),
    Lit("will not be moving"), Lit("not selected"), Lit("rejected")]

  const InterviewingPatterns: seq<Pattern> := [
    Near("schedule", 20, "interview"), Near("interview", 10, "scheduled"),
    Lit("phone screen"), Lit("technical interview"), Lit("onsite interview"),
    Lit("zoom meeting"), Lit("video call"), Lit("would like to meet"),
    Lit("please join"), Lit("calendar invite"), Lit("final round")]

  const ScreeningPatterns: seq<Pattern> := [
    Lit("phone screen"), Lit("initial call"), Lit("quick chat"),
    Lit("recruiter call"), Lit("introductory call"), Lit("learn more about you")]

  const OfferPatterns: seq<Pattern> := [
    Lit("offer of employment"), Lit("pleased to offer"), Lit("job offer"),
    Lit("offer letter"), Lit("compensation"), Lit("start date"),
    Lit("excited to extend"), Lit("welcome to the team")]

  const AppliedPatterns: seq<Pattern> := [
    Lit("received your application"), Lit("thank you for applying"),
    Near("application", 10, "received"), Lit("successfully submitted"),
    Lit("application confirmation")]

  /** STATUS_PATTERNS: the patterns of each category. */
  function Patterns(c: Category): seq<Pattern>
  {
    match c
    case Declined => DeclinedPatterns
    case Interviewing => InterviewingPatterns
    case Screening => ScreeningPatterns
    case Offer => OfferPatterns
    case Applied => AppliedPatterns
  }

  /** Some pattern of category `c` matches `text`. */
  predicate CategoryMatches(c: Category, text: string)
  {
    exists k | 0 <= k < |Patterns(c)| :: Matches(Patterns(c)[k], text)
  }

  /** The first category of `cats`, from index `i` on, with a matching pattern. */
  function FirstMatching(cats: seq<Category>, text: string, i: nat): (r: Option<nat>)
    requires i <= |cats|
    ensures r.None? ==> forall k :: i <= k < |cats| ==> !CategoryMatches(cats[k], text)
    ensures r.Some? ==> i <= r.value < |cats| && CategoryMatches(cats[r.value], text)
    ensures r.Some? ==> forall k :: i <= k < r.value ==> !CategoryMatches(cats[k], text)
    decreases |cats| - i
  {
    if i == |cats| then None
    else if CategoryMatches(cats[i], text) then Some(i)
    else FirstMatching(cats, text, i + 1)
  }

  /**
   * KeywordClassifier.detect_status: the first category, in priority order,
   * one of whose patterns matches the lower-cased content; `applied` when
   * none does.
   */
  function DetectStatus(content: string): (c: Category)
    ensures c != Applied ==> CategoryMatches(c, Lower(content))
    ensures forall d :: Rank(d) < Rank(c) ==> !CategoryMatches(d, Lower(content))
  {
    var text := Lower(content);
    match FirstMatching(Priority, text, 0)
    case Some(k) =>
      RankOfPriority(k);
      Priority[k]
    case None => Applied
  }

  /** A rejection phrase wins over everything else in the same email. */
  lemma DeclinedWins(content: string)
    requires CategoryMatches(Declined, Lower(content))
    ensures DetectStatus(content) == Declined
  {
    assert Rank(DetectStatus(content)) == 0;
  }

  /**
   * "phone screen" is a pattern of both interviewing and screening, and
   * interviewing comes first: an email mentioning a phone screen is never
   * classified as screening.
   */
  lemma PhoneScreenIsInterviewing(content: string)
    requires Contains(Lower(content), "phone screen")
    ensures DetectStatus(content) in {Declined, Interviewing}
  {
    assert Matches(Patterns(Interviewing)[2], Lower(content));
    assert CategoryMatches(Interviewing, Lower(content));
  }

  // ---------------------------------------------------------------------------
  // Company extraction (KeywordClassifier.extract_company)
  // ---------------------------------------------------------------------------

  const GenericNames: seq<string> := ["hr", "recruiting", "careers", "talent", "jobs", "noreply", "no-reply"]

  const ProviderDomains: seq<string> := ["gmail", "yahoo", "hotmail", "outlook", "greenhouse", "lever", "workday"]

  const UnknownCompany: string := "Unknown Company"

  /** `p` is the index of the first '<' of `s`. */
  predicate FirstAngle(s: string, p: int)
  {
    0 <= p < |s| && s[p] == '<' && '<' !in s[..p]
  }

  /**
   * `re.match(r'^([^<]+)\s*<', s)`: matches exactly when the first '<' is
   * not the first character; group 1 is everything before it.
   */
  function DisplayName(s: string): (r: Option<string>)
    ensures r.Some? <==> exists p :: FirstAngle(s, p) && p > 0
    ensures r.Some? ==> FirstAngle(s, |r.value|) && r.value == s[..|r.value|]
  {
    match IndexOf(s, '<')
    case Some(p) =>
      if p > 0 then
        assert FirstAngle(s, p);
        Some(s[..p])
      else None
    case None => None
  }

  /**
   * `re.search(r'@([^.]+)\.', s)` can match at `i`: an '@' there, then at
   * least one character that is not '.', then a '.'.
   */
  predicate DomainAt(s: string, i: int)
  {
    0 <= i < |s| && s[i] == '@' && match IndexOf(s[i + 1..], '.') { case Some(d) => d > 0 case None => false }
  }

  /** Group 1 of the domain search when it matches at `i`. */
  function DomainGroup(s: string, i: nat): (g: string)
    requires DomainAt(s, i)
    ensures |g| > 0 && '.' !in g
  {
    s[i + 1..i + 1 + IndexOf(s[i + 1..], '.').value]
  }

  /** The group is exactly the text between the '@' and the first '.' after it. */
  lemma DomainGroupSpan(s: string, i: nat)
    requires DomainAt(s, i)
    ensures var g := DomainGroup(s, i);
      i + 1 + |g| < |s| && g == s[i + 1..i + 1 + |g|] && s[i + 1 + |g|] == '.'
  {
    var d := IndexOf(s[i + 1..], '.').value;
    assert s[i + 1..][d] == s[i + 1 + d];
  }

  /** The leftmost position at or after `i` where the domain search matches. */
  function FirstDomainAt(s: string, i: nat): (r: Option<nat>)
    ensures r.None? ==> forall j :: i <= j ==> !DomainAt(s, j)
    ensures r.Some? ==> i <= r.value && DomainAt(s, r.value)
    ensures r.Some? ==> forall j :: i <= j < r.value ==> !DomainAt(s, j)
    decreases |s| - i
  {
    if i >= |s| then
      assert forall j :: i <= j ==> !DomainAt(s, j);
      None
    else if DomainAt(s, i) then Some(i)
    else FirstDomainAt(s, i + 1)
  }

  /** The display name, stripped, when it is not a generic role name. */
  function UsableDisplayName(sender: string): Option<string>
  {
    match DisplayName(sender)
    case Some(g) => if Lower(Strip(g)) !in GenericNames then Some(Strip(g)) else None
    case None => None
  }

  /**
   * KeywordClassifier.extract_company: the stripped display name before the
   * first '<' unless it is a generic role name; otherwise the title-cased
   * label between the leftmost matching '@' and the next '.', unless it is a
   * mail provider or ATS; otherwise "Unknown Company".
   */
  function ExtractCompany(sender: string): (r: string)
    ensures forall p ::
      (FirstAngle(sender, p) && p > 0 && Lower(Strip(sender[..p])) !in GenericNames) ==> r == Strip(sender[..p])
    ensures UsableDisplayName(sender).None? ==>
      forall i :: DomainAt(sender, i) && (forall j :: 0 <= j < i ==> !DomainAt(sender, j))
        ==> r == (if Lower(DomainGroup(sender, i)) !in ProviderDomains then Title(DomainGroup(sender, i)) else UnknownCompany)
    ensures UsableDisplayName(sender).None? && (forall i :: !DomainAt(sender, i)) ==> r == UnknownCompany
  {
    match UsableDisplayName(sender)
    case Some(name) => name
    case None =>
      match FirstDomainAt(sender, 0)
      case Some(i) =>
        var domain := DomainGroup(sender, i);
        if Lower(domain) !in ProviderDomains then Title(domain) else UnknownCompany
      case None => UnknownCompany
  }

  /**
   * A display name made only of white space is not generic, so the company
   * comes out empty instead of falling back to the domain.
   */
  lemma BlankDisplayNameGivesEmptyCompany(sender: string, p: nat)
    requires FirstAngle(sender, p) && p > 0
    requires forall i :: 0 <= i < p ==> IsSpace(sender[i])
    ensures ExtractCompany(sender) == ""
  {
    var name := sender[..p];
    assert forall i :: 0 <= i < |name| ==> IsSpace(name[i]);
    assert LeadingSpaces(name) == p;
    assert Lower("") == "";
    assert "" !in GenericNames;
  }

  // ---------------------------------------------------------------------------
  // Keyword classification (KeywordClassifier.classify_email)
  // ---------------------------------------------------------------------------

  /** The dictionary a classification returns. */
  type Details = map<string, string>

  const Unknown: string := "Unknown"

  /** The status strings the model is asked to choose from. */
  const StatusVocabulary: set<string> := {"applied", "screening", "interviewing", "offer", "declined", "withdrawn"}

  /**
   * KeywordClassifier.classify_email: nothing when the first 500 characters
   * of the body do not make the message related; otherwise the company guess,
   * "Unknown" title and location, and the status detected in "subject body".
   */
  function KeywordClassify(sender: string, subject: string, body: string): (r: Option<Details>)
    ensures r.None? <==> !KeywordRelated(sender, subject, Take(body, 500))
    ensures r.Some? ==> r.value.Keys == {"company", "job_title", "location", "status"}
    ensures r.Some? ==> r.value["job_title"] == Unknown && r.value["location"] == Unknown
    ensures r.Some? ==> r.value["company"] == ExtractCompany(sender)
    ensures r.Some? ==> r.value["status"] == Name(DetectStatus(subject + " " + body))
    ensures r.Some? ==> r.value["status"] in StatusVocabulary
  {
    if !KeywordRelated(sender, subject, Take(body, 500)) then None
    else
      var status := Name(DetectStatus(subject + " " + body));
      Some(KeywordDetails(ExtractCompany(sender), status))
  }

  function KeywordDetails(company: string, status: string): (d: Details)
    ensures d.Keys == {"company", "job_title", "location", "status"}
    ensures d["company"] == company && d["status"] == status
    ensures d["job_title"] == Unknown && d["location"] == Unknown
  {
    map["company" := company, "job_title" := Unknown, "location" := Unknown, "status" := status]
  }

  // ---------------------------------------------------------------------------
  // The model-backed classifier (EmailClassifier)
  // ---------------------------------------------------------------------------

  /** The reply by which the model says the email is not about a job. */
  const NotJobSentinel: string := "NOT_JOB_EMAIL"

  /** The `status_map` of EmailClassifier.classify_email, in its declaration order. */
  const StatusAliases: seq<(string, string)> := [
    ("applied", "applied"), ("screening", "screening"), ("interviewing", "interviewing"),
    ("offer", "offer"), ("declined", "declined"), ("rejected", "declined"), ("withdrawn", "withdrawn")]

  /**
   * One line of the reply: stripped, and when it holds a ':' split at the
   * first one into a key (stripped, lower-cased, spaces turned into '_') and
   * a stripped value.
   */
  function ParseLine(raw: string): (r: Option<(string, string)>)
    ensures r.Some? <==> ':' in Strip(raw)
    ensures r.Some? ==> IsKey(r.value.0)
    ensures r.Some? ==> r.value.1 == Strip(r.value.1)
  {
    var line := Strip(raw);
    match IndexOf(line, ':')
    case None => None
    case Some(c) =>
      var value := Strip(line[c + 1..]);
      StripIdempotent(line[c + 1..]);
      Some((Key(line[..c]), value))
  }

  /**
   * `key, value = line.split(':', 1)`: the line is split at its FIRST ':',
   * the key is the part before it and the value the stripped rest, which may
   * itself hold further ':' characters.
   */
  lemma ParseLineSplitsAtFirstColon(raw: string)
    requires ':' in Strip(raw)
    ensures var line := Strip(raw);
      var c := IndexOf(line, ':').value;
      c < |line| && line[c] == ':' && ':' !in line[..c]
      && ParseLine(raw) == Some((Key(line[..c]), Strip(line[c + 1..])))
  {
  }

  /** A dictionary key as the parser writes it: no spaces and no upper-case letters. */
  predicate IsKey(k: string)
  {
    ' ' !in k && forall i :: 0 <= i < |k| ==> !IsUpper(k[i])
  }

  /** The key of a reply line: stripped, lower-cased, spaces turned into '_'. */
  function Key(text: string): (k: string)
    ensures IsKey(k)
  {
    SpacesToUnderscores(Lower(Strip(text)))
  }

  /** The entry one reply line contributes: none, or its (key, value). */
  function LineEntry(line: string): (es: seq<(string, string)>)
    ensures |es| <= 1
  {
    match ParseLine(line)
    case None => []
    case Some(kv) => [kv]
  }

  /** The entries of the first `n` lines, each line giving `entry(line)`, in order. */
  function EntriesBy(entry: string -> seq<(string, string)>, lines: seq<string>, n: nat): seq<(string, string)>
    requires n <= |lines|
  {
    if n == 0 then [] else EntriesBy(entry, lines, n - 1) + entry(lines[n - 1])
  }

  /** The (key, value) entries of the first `n` reply lines that hold a ':', in order. */
  function Entries(lines: seq<string>, n: nat): seq<(string, string)>
    requires n <= |lines|
  {
    EntriesBy(LineEntry, lines, n)
  }

  /** A dictionary filled from `entries` in order, a later entry overwriting an earlier one. */
  function Assemble(entries: seq<(string, string)>): Details
  {
    if entries == [] then map[]
    else Assemble(entries[..|entries| - 1])[entries[|entries| - 1].0 := entries[|entries| - 1].1]
  }

  /** The `details` dictionary the reply lines produce. */
  function ParseReply(lines: seq<string>): Details
  {
    Assemble(Entries(lines, |lines|))
  }

  /** `details` with the entry, if any, set. */
  function Put(details: Details, entry: seq<(string, string)>): Details
  {
    if entry == [] then details else details[entry[0].0 := entry[0].1]
  }

  /** One more line either sets one key or leaves the dictionary as it was. */
  lemma CollectStep(lines: seq<string>, i: nat)
    requires i < |lines|
    ensures Assemble(Entries(lines, i + 1)) == Put(Assemble(Entries(lines, i)), LineEntry(lines[i]))
  {
    var entry := LineEntry(lines[i]);
    assert Entries(lines, i + 1) == Entries(lines, i) + entry;
    if entry != [] {
      AssembleSnoc(Entries(lines, i), entry[0]);
    } else {
      assert Entries(lines, i) + entry == Entries(lines, i);
    }
  }

  lemma AssembleSnoc(entries: seq<(string, string)>, kv: (string, string))
    ensures Assemble(entries + [kv]) == Assemble(entries)[kv.0 := kv.1]
  {
    assert (entries + [kv])[..|entries|] == entries;
  }

  /** A key is in the dictionary exactly when some entry has it. */
  lemma {:induction false} AssembledKeys(entries: seq<(string, string)>, key: string)
    ensures key in Assemble(entries) <==> exists i :: 0 <= i < |entries| && entries[i].0 == key
  {
    if entries != [] {
      var init := entries[..|entries| - 1];
      AssembledKeys(init, key);
      assert forall i :: 0 <= i < |init| ==> init[i] == entries[i];
    }
  }

  /** A key holds the value of the LAST entry that has it. */
  lemma {:induction false} LastEntryWins(entries: seq<(string, string)>, key: string) returns (i: nat)
    requires key in Assemble(entries)
    ensures i < |entries| && entries[i] == (key, Assemble(entries)[key])
    ensures forall j :: i < j < |entries| ==> entries[j].0 != key
  {
    var last := |entries| - 1;
    if entries[last].0 == key {
      i := last;
    } else {
      var init := entries[..last];
      i := LastEntryWins(init, key);
      assert init[i] == entries[i];
      assert forall j :: i < j < |init| ==> init[j] == entries[j];
    }
  }

  lemma {:induction false} ByLineGivesEntry(entry: string -> seq<(string, string)>, lines: seq<string>, n: nat, k: nat, e: (string, string))
    requires k < n <= |lines| && e in entry(lines[k])
    ensures e in EntriesBy(entry, lines, n)
  {
    if k < n - 1 {
      ByLineGivesEntry(entry, lines, n - 1, k, e);
    }
  }

  lemma {:induction false} ByEntryHasLine(entry: string -> seq<(string, string)>, lines: seq<string>, n: nat, e: (string, string)) returns (k: nat)
    requires n <= |lines| && e in EntriesBy(entry, lines, n)
    ensures k < n && e in entry(lines[k])
  {
    if e in EntriesBy(entry, lines, n - 1) {
      k := ByEntryHasLine(entry, lines, n - 1, e);
    } else {
      k := n - 1;
    }
  }

  /** Every line that holds a ':' contributes its parse to the entries. */
  lemma LineGivesEntry(lines: seq<string>, n: nat, k: nat, e: (string, string))
    requires k < n <= |lines| && ParseLine(lines[k]) == Some(e)
    ensures e in Entries(lines, n)
  {
    LineEntryIsParse(lines[k], e);
    ByLineGivesEntry(LineEntry, lines, n, k, e);
  }

  /** Every entry is the parse of some line. */
  lemma EntryHasLine(lines: seq<string>, n: nat, e: (string, string)) returns (k: nat)
    requires n <= |lines| && e in Entries(lines, n)
    ensures k < n && ParseLine(lines[k]) == Some(e)
  {
    k := ByEntryHasLine(LineEntry, lines, n, e);
    LineEntryIsParse(lines[k], e);
  }

  /** Every key of the reply's details, with its value, is the parse of some reply line. */
  lemma ReplyValueFromLine(lines: seq<string>, key: string) returns (k: nat)
    requires key in ParseReply(lines)
    ensures k < |lines| && ParseLine(lines[k]) == Some((key, ParseReply(lines)[key]))
  {
    var entries := Entries(lines, |lines|);
    var i := LastEntryWins(entries, key);
    k := EntryHasLine(lines, |lines|, entries[i]);
  }

  /** The key of every reply line that holds a ':' is among the details. */
  lemma LineKeyInReply(lines: seq<string>, k: nat)
    requires k < |lines| && ParseLine(lines[k]).Some?
    ensures ParseLine(lines[k]).value.0 in ParseReply(lines)
  {
    var entries := Entries(lines, |lines|);
    var e := ParseLine(lines[k]).value;
    LineGivesEntry(lines, |lines|, k, e);
    var i :| 0 <= i < |entries| && entries[i] == e;
    AssembledKeys(entries, e.0);
  }

  /** A line contributes the entry its parse gives, and nothing when it has no ':'. */
  lemma LineEntryIsParse(line: string, e: (string, string))
    ensures e in LineEntry(line) <==> ParseLine(line) == Some(e)
  {
  }

  /** The last line of the reply, when it holds a ':', sets its key to its value. */
  lemma LastLineWins(lines: seq<string>)
    requires |lines| > 0 && ParseLine(lines[|lines| - 1]).Some?
    ensures var kv := ParseLine(lines[|lines| - 1]).value;
      kv.0 in ParseReply(lines) && ParseReply(lines)[kv.0] == kv.1
  {
    var n := |lines| - 1;
    var kv := ParseLine(lines[n]).value;
    CollectStep(lines, n);
    assert LineEntry(lines[n]) == [kv];
    var before := Assemble(Entries(lines, n));
    assert Put(before, [kv]) == before[kv.0 := kv.1];
    assert ParseReply(lines) == Assemble(Entries(lines, n + 1));
  }

  /** Lines without a ':' (blank ones among them) leave the parse unchanged. */
  lemma IgnoredLine(lines: seq<string>, k: nat)
    requires k < |lines| && ':' !in Strip(lines[k])
    ensures Entries(lines, k + 1) == Entries(lines, k)
  {
    assert Entries(lines, k) + [] == Entries(lines, k);
  }

  /** The index of the first alias key contained in `raw`, from position `k` on. */
  function FirstAlias(raw: string, k: nat): (r: Option<nat>)
    requires k <= |StatusAliases|
    ensures r.None? ==> forall j :: k <= j < |StatusAliases| ==> !Contains(raw, StatusAliases[j].0)
    ensures r.Some? ==> k <= r.value < |StatusAliases| && Contains(raw, StatusAliases[r.value].0)
    ensures r.Some? ==> forall j :: k <= j < r.value ==> !Contains(raw, StatusAliases[j].0)
    decreases |StatusAliases| - k
  {
    if k == |StatusAliases| then None
    else if Contains(raw, StatusAliases[k].0) then Some(k)
    else FirstAlias(raw, k + 1)
  }

  /**
   * The status normalisation: a status whose lower-cased text contains an
   * alias key is replaced by the value of the first such key; any other
   * status, and every other entry, is left as it was.
   */
  function NormalizeStatus(details: Details): (r: Details)
    ensures r.Keys == details.Keys
    ensures forall k :: k in details && k != "status" ==> r[k] == details[k]
    ensures "status" in details ==>
      (r["status"] in StatusVocabulary || (r["status"] == details["status"] && FirstAlias(Lower(details["status"]), 0).None?))
    ensures "status" in details ==>
      r["status"] == match FirstAlias(Lower(details["status"]), 0)
                     case Some(k) => StatusAliases[k].1
                     case None => details["status"]
  {
    if "status" in details then
      match FirstAlias(Lower(details["status"]), 0)
      case Some(k) => details["status" := StatusAliases[k].1]
      case None => details
    else details
  }

  /** The details the model reply yields, before the company check. */
  function ReplyDetails(reply: string): Details
  {
    NormalizeStatus(ParseReply(SplitLines(Strip(reply))))
  }

  /**
   * The relatedness policy of EmailClassifier.is_job_related: a keyword hit
   * decides on its own; otherwise, with a client, the answer is whether the
   * stripped, lower-cased reply is exactly "yes"; with no client or a failed
   * call the answer is no.
   */
  function Related(hasClient: bool, sender: string, subject: string, snippet: string, reply: Option<string>): (r: bool)
    ensures KeywordRelated(sender, subject, snippet) ==> r
    ensures !KeywordRelated(sender, subject, snippet) ==>
      (r <==> hasClient && reply.Some? && Lower(Strip(reply.value)) == "yes")
  {
    if KeywordRelated(sender, subject, snippet) then true
    else if hasClient then
      match reply
      case Some(text) => Lower(Strip(text)) == "yes"
      case None => false
    else false
  }

  /**
   * The extraction policy of EmailClassifier.classify_email: with a client
   * and a reply, the sentinel means "not a job email"; otherwise the parsed
   * details are used when their company is non-empty. In every other case
   * (no client, a failed call, no company) the keyword classification is
   * returned.
   */
  function Classify(hasClient: bool, sender: string, subject: string, body: string, reply: Option<string>): (r: Option<Details>)
    ensures !hasClient || reply.None? ==> r == KeywordClassify(sender, subject, body)
    ensures hasClient && reply.Some? && Strip(reply.value) == NotJobSentinel ==> r.None?
    ensures r.Some? ==> "company" in r.value
    ensures r.Some? && r != KeywordClassify(sender, subject, body) ==>
      r == Some(ReplyDetails(reply.value)) && r.value["company"] != ""
  {
    if hasClient && reply.Some? then
      if Strip(reply.value) == NotJobSentinel then None
      else
        var details := ReplyDetails(reply.value);
        if "company" in details && details["company"] != "" then Some(details)
        else KeywordClassify(sender, subject, body)
    else KeywordClassify(sender, subject, body)
  }

  /** The model is asked only to rescue a keyword miss: it never overturns a hit. */
  lemma ModelNeverOverturnsKeywordHit(hasClient: bool, sender: string, subject: string, snippet: string, reply: Option<string>)
    requires KeywordRelated(sender, subject, snippet)
    ensures Related(hasClient, sender, subject, snippet, reply)
  {
  }

  /** The sentinel reply wins over the keywords, even when they match. */
  lemma SentinelMeansNoResult(sender: string, subject: string, body: string, text: string)
    requires Strip(text) == NotJobSentinel
    ensures Classify(true, sender, subject, body, Some(text)).None?
  {
  }

  /**
   * A reply that is not the sentinel but names no company (the key is
   * missing or its value is empty) is discarded for the keyword result.
   */
  lemma NoCompanyFallsBack(sender: string, subject: string, body: string, text: string)
    requires Strip(text) != NotJobSentinel
    requires "company" !in ReplyDetails(text) || ReplyDetails(text)["company"] == ""
    ensures Classify(true, sender, subject, body, Some(text)) == KeywordClassify(sender, subject, body)
  {
  }

  /** Without a client, or when the call fails, extraction is the keyword classification. */
  lemma ClassifyFallsBack(hasClient: bool, sender: string, subject: string, body: string, reply: Option<string>)
    requires !hasClient || reply.None?
    ensures Classify(hasClient, sender, subject, body, reply) == KeywordClassify(sender, subject, body)
  {
  }

  /**
   * A result taken from the model reply has a non-empty company, and its
   * status (when present) is in the closed vocabulary unless no alias key
   * occurred in it.
   */
  lemma {:induction false} ModelResultShape(sender: string, subject: string, body: string, text: string)
    requires Strip(text) != NotJobSentinel
    requires "company" in ReplyDetails(text) && ReplyDetails(text)["company"] != ""
    ensures Classify(true, sender, subject, body, Some(text)) == Some(ReplyDetails(text))
    ensures var d := ReplyDetails(text); "status" in d ==>
      d["status"] in StatusVocabulary || FirstAlias(Lower(d["status"]), 0).None?
  {
    var parsed := ParseReply(SplitLines(Strip(text)));
    if "status" in parsed {
      var d := ReplyDetails(text);
      if d["status"] !in StatusVocabulary {
        assert d["status"] == parsed["status"];
      }
    }
  }

  /**
   * The first loop of classify_email: every reply line that holds a ':' sets
   * its key in `details`.
   */
  method CollectDetails(lines: seq<string>) returns (details: Details)
    ensures details == ParseReply(lines)
  {
    details := map[];
    var i := 0;
    while i < |lines|
      invariant 0 <= i <= |lines|
      invariant details == Assemble(Entries(lines, i))
    {
      CollectStep(lines, i);
      details := Put(details, LineEntry(lines[i]));
      i := i + 1;
    }
  }

  /**
   * The second loop of classify_email: the status is overwritten by the
   * value of the first alias key its lower-cased text contains.
   */
  method RewriteStatus(parsed: Details) returns (details: Details)
    ensures details == NormalizeStatus(parsed)
  {
    details := parsed;
    if "status" in details {
      var raw := Lower(details["status"]);
      var k := 0;
      while k < |StatusAliases|
        invariant 0 <= k <= |StatusAliases|
        invariant details == parsed
        invariant forall j :: 0 <= j < k ==> !Contains(raw, StatusAliases[j].0)
      {
        if Contains(raw, StatusAliases[k].0) {
          details := details["status" := StatusAliases[k].1];
          break;
        }
        k := k + 1;
      }
    }
  }

  /** The classifier facade; `client` is whether a language-model client was built. */
  class EmailClassifier {
    var client: bool

    /**
     * `__init__`: a client exists when the API key is set (non-empty) and the
     * client library could be imported.
     */
    constructor(apiKey: Option<string>, libraryInstalled: bool)
      ensures client == (apiKey.Some? && apiKey.value != "" && libraryInstalled)
    {
      client := apiKey.Some? && apiKey.value != "" && libraryInstalled;
    }

    /**
     * `is_job_related`: the keyword test first; the model (whose reply is
     * `reply`) only when it misses and a client exists.
     */
    method IsJobRelated(sender: string, subject: string, snippet: string, reply: Option<string>) returns (r: bool)
      ensures KeywordRelated(sender, subject, snippet) ==> r
      ensures !KeywordRelated(sender, subject, snippet) ==>
        (r <==> client && reply.Some? && Lower(Strip(reply.value)) == "yes")
      ensures r == Related(client, sender, subject, snippet, reply)
    {
      if KeywordRelated(sender, subject, snippet) {
        return true;
      }
      if client {
        match reply {
          case Some(text) =>
            var result := Lower(Strip(text));
            return result == "yes";
          case None =>
        }
      }
      return false;
    }

    /**
     * `classify_email`: parses the reply line by line into `details`, then
     * rewrites its status to the first alias it contains; returns the parsed
     * details when they name a company, and otherwise the keyword result.
     */
    method ClassifyEmail(sender: string, subject: string, body: string, reply: Option<string>) returns (r: Option<Details>)
      ensures r == Classify(client, sender, subject, body, reply)
    {
      if client && reply.Some? {
        var result := Strip(reply.value);
        if result == NotJobSentinel {
          return None;
        }
        var details := CollectDetails(SplitLines(result));
        details := RewriteStatus(details);
        if "company" in details && details["company"] != "" {
          return Some(details);
        }
      }
      r := KeywordClassify(sender, subject, body);
    }
  }
}
