/** The intent handlers of the voice skill and the dispatcher that routes a
    request to them. Each handler reads the session and the answers of the
    upstream calls it makes, and gives back the calls it made and its reply. */
module Skill {
  import opened Wrappers
  import Text
  import opened EnrollmentService

  const AppName := "edX"
  const SpokenName := "ed ex"
  const EnrollmentsKey := "ENROLLMENTS"
  const Reprompt := "How else may I assist you?"

  const ServerError := "An error occurred while contacting the " + SpokenName + " server. Please try again."
  const NotEnrolled := "You are not currently enrolled in any courses"
  const LoginForStatus := "You must be logged in to get your enrollment status."
  const LoginToEnroll := "You must be logged in to enroll in a course."
  const EnrolledInVoting := "You have been enrolled in US Voting Access and Fraud. "
  const UnenrollRefusal :=
    "I am not yet able to unenroll learners. Please visit your course dashboard to unenroll from courses."
  const HelpText := "You can request your current enrollment count"

  datatype Card = SimpleCard(title: string, content: string) | LinkAccountCard

  /** A statement ends the session; a question keeps it open and re-prompts. */
  datatype Response =
    | Statement(speech: string, card: Card)
    | Question(speech: string, reprompt: string, card: Card)

  /** A statement with the usual card showing the speech under the app name. */
  function Say(speech: string): Response {
    Statement(speech, SimpleCard(AppName, speech))
  }

  /** A question with the usual card showing the speech under the app name. */
  function Prompt(speech: string, reprompt: string): Response {
    Question(speech, reprompt, SimpleCard(AppName, speech))
  }

  /** A statement that asks the learner to link their account. */
  function LoginRequired(speech: string): Response {
    Statement(speech, LinkAccountCard)
  }

  /** An upstream request a handler issued. */
  datatype Call =
    | FetchEnrollments
    | PostEnrollmentChange(body: Json)
    | LookUpCourseRuns(keys: string)
    | SearchCatalog(params: map<string, Json>)
  {
    /** LMS calls are made with the learner's token, catalog calls with the
        service's own. */
    predicate UsesLearnerToken() {
      FetchEnrollments? || PostEnrollmentChange?
    }
  }

  /** An exception no handler catches: the turn gets no spoken answer. */
  datatype Escape = Escaped(failure: JoinFailure) | MissingTitle(key: CourseKey) | MissingSessionEnrollments

  datatype Reply = Speak(response: Response) | Uncaught(escape: Escape)

  datatype Turn = Turn(calls: seq<Call>, reply: Reply)

  /** The answer each upstream call would give in this turn. */
  datatype Upstreams = Upstreams(
    listing: Upstream<seq<LmsEnrollment>>,
    change: Upstream<()>,
    courseRuns: Upstream<seq<CourseRun>>,
    search: Upstream<seq<SearchResult>>)

  /** An enrollment set kept in the attributes is never empty. */
  predicate StoreNonEmpty(attributes: map<string, EnrollmentSet>) {
    EnrollmentsKey in attributes ==> Count(attributes[EnrollmentsKey]) >= 1
  }

  /** The conversational session of one request: whether it has just begun,
      the learner's access token, and the attributes carried between turns. */
  class Session {
    const isNew: bool
    const accessToken: Option<string>
    var attributes: map<string, EnrollmentSet>

    constructor (isNew: bool, accessToken: Option<string>, attributes: map<string, EnrollmentSet>)
      ensures this.isNew == isNew && this.accessToken == accessToken && this.attributes == attributes
    {
      this.isNew := isNew;
      this.accessToken := accessToken;
      this.attributes := attributes;
    }

    /** The token test of the handlers: a missing or empty token counts as absent. */
    predicate LoggedIn() {
      accessToken.Some? && accessToken.value != ""
    }

    /** An enrollment set kept in the session is never empty. */
    predicate StoredSetNonEmpty()
      reads this
    {
      StoreNonEmpty(attributes)
    }
  }

  /** A count followed by a space and a word, the singular word exactly when the count is one. */
  function Counted(n: nat, singular: string, plural: string): string {
    Text.NatToString(n) + " " + (if n == 1 then singular else plural)
  }

  /** The spoken count cannot be mistaken: two speeches that agree up to and
      after the counted phrase state the same count. */
  lemma CountedDeterminesCount(prefix: string, m: nat, s1: string, p1: string, rest1: string,
                               n: nat, s2: string, p2: string, rest2: string)
    requires prefix + Counted(m, s1, p1) + rest1 == prefix + Counted(n, s2, p2) + rest2
    ensures m == n
  {
    var a, c := Text.NatToString(m), Text.NatToString(n);
    var b := (if m == 1 then s1 else p1) + rest1;
    var d := (if n == 1 then s2 else p2) + rest2;
    assert prefix + Counted(m, s1, p1) + rest1 == prefix + (a + [' '] + b);
    assert prefix + Counted(n, s2, p2) + rest2 == prefix + (c + [' '] + d);
    assert (prefix + (a + [' '] + b))[|prefix|..] == a + [' '] + b;
    assert (prefix + (c + [' '] + d))[|prefix|..] == c + [' '] + d;
    assert ' ' !in a && ' ' !in c;
    Text.FieldBeforeSeparator(a, b, c, d, ' ');
    Text.NatToStringInjective(m, n);
  }

  /** The word after the count is the singular one exactly when the count is one. */
  lemma CountedWording(n: nat, singular: string, plural: string)
    requires singular != plural
    ensures Counted(n, singular, plural) == Text.NatToString(n) + " " + singular <==> n == 1
  {
    var head := Text.NatToString(n) + " ";
    if n != 1 {
      assert (head + plural)[|head|..] == plural;
      assert (head + singular)[|head|..] == singular;
    }
  }

  const CountLead := "You are currently enrolled in "
  const CountTail := ". Would you like me to list them?"

  /** The question asked after counting the enrollments. */
  function CountQuestion(n: nat): string {
    CountLead + Counted(n, "course", "courses") + CountTail
  }

  /** The question states the count it was asked with, and only that count. */
  lemma CountQuestionStatesCount(m: nat, n: nat)
    requires CountQuestion(m) == CountQuestion(n)
    ensures m == n
  {
    CountedDeterminesCount(CountLead, m, "course", "courses", CountTail, n, "course", "courses", CountTail);
  }

  const ListLead := "<speak><p>You are currently enrolled in "
  const OneListed := "course. It is"
  const SomeListed := "courses. They are"

  /** The listing spoken by `list_enrollments`: a header with the count, one
      element per title, then the re-prompt. */
  function ListSpeech(titles: seq<string>): string {
    ListLead + Counted(|titles|, OneListed, SomeListed) + "</p>" + Text.Paragraphs(titles) + Reprompt + "</speak>"
  }

  /** Regrouping a spoken text as its lead, its counted phrase and the rest.
      Stated over plain variables so that the solver does not regroup the
      literal texts themselves, which is far more expensive. */
  lemma RegroupTail(a: string, b: string, c: string, d: string, e: string)
    ensures a + b + c + d + e == a + b + (c + d + e)
  {
  }

  lemma RegroupLongTail(a: string, b: string, c: string, d: string, e: string, f: string)
    ensures a + b + c + d + e + f == a + b + (c + d + e + f)
  {
  }

  /** Two listings that read alike name the same number of courses. */
  lemma ListSpeechStatesCount(t1: seq<string>, t2: seq<string>)
    requires ListSpeech(t1) == ListSpeech(t2)
    ensures |t1| == |t2|
  {
    var rest1 := "</p>" + Text.Paragraphs(t1) + Reprompt + "</speak>";
    var rest2 := "</p>" + Text.Paragraphs(t2) + Reprompt + "</speak>";
    RegroupLongTail(ListLead, Counted(|t1|, OneListed, SomeListed), "</p>", Text.Paragraphs(t1), Reprompt, "</speak>");
    RegroupLongTail(ListLead, Counted(|t2|, OneListed, SomeListed), "</p>", Text.Paragraphs(t2), Reprompt, "</speak>");
    CountedDeterminesCount(ListLead, |t1|, OneListed, SomeListed, rest1, |t2|, OneListed, SomeListed, rest2);
  }

  /** The listing spoken after the learner says yes. */
  function YesSpeech(titles: seq<string>): string {
    "<speak><p>Your courses include</p>" + Text.Paragraphs(titles) + Reprompt + "</speak>"
  }

  const SearchLead := "<speak><p>I found "
  const NothingFound := "I found no courses about "

  /** What `search` says about the titles found for a subject. */
  function SearchSpeech(subject: string, titles: seq<string>): string {
    if |titles| == 0 then NothingFound + subject
    else
      SearchLead
        + Counted(|titles|, "course about " + subject + ". It is", "courses about " + subject + ". They are")
        + "</p>" + Text.Paragraphs(titles) + "</speak>"
  }

  /** For one subject, two search answers that read alike found the same
      number of courses. */
  lemma SearchSpeechStatesCount(subject: string, t1: seq<string>, t2: seq<string>)
    requires SearchSpeech(subject, t1) == SearchSpeech(subject, t2)
    ensures |t1| == |t2|
  {
    var s1, p1 := "course about " + subject + ". It is", "courses about " + subject + ". They are";
    if |t1| != 0 && |t2| != 0 {
      var rest1 := "</p>" + Text.Paragraphs(t1) + "</speak>";
      var rest2 := "</p>" + Text.Paragraphs(t2) + "</speak>";
      RegroupTail(SearchLead, Counted(|t1|, s1, p1), "</p>", Text.Paragraphs(t1), "</speak>");
      RegroupTail(SearchLead, Counted(|t2|, s1, p1), "</p>", Text.Paragraphs(t2), "</speak>");
      CountedDeterminesCount(SearchLead, |t1|, s1, p1, rest1, |t2|, s1, p1, rest2);
    }
  }

  /** Worked example: two enrollments are counted in the plural. */
  lemma CountQuestionExample()
    ensures CountQuestion(2) == CountLead + "2 courses" + CountTail
  {
  }

  /** Worked example: a search that finds nothing names the subject. */
  lemma SearchSpeechExample()
    ensures SearchSpeech("data science", []) == "I found no courses about data science"
  {
  }

  function SearchTitles(results: seq<SearchResult>): (ts: seq<string>)
    ensures |ts| == |results|
    ensures forall i | 0 <= i < |ts| :: ts[i] == results[i].title
  {
    seq(|results|, i requires 0 <= i < |results| => results[i].title)
  }

  const Welcome := "Welcome to the " + SpokenName + " app. "
  const InvitationToAsk := "You can request your current enrollments."
  const LoginToContinue := "You must be logged in to continue."

  /** `launch`: a welcome that keeps the session open and re-prompts with
      itself; it invites a request when there is a token and otherwise asks
      the learner to link their account. */
  function Launch(session: Session): (r: Response)
    ensures r.Question? && r.reprompt == r.speech
    ensures session.LoggedIn() ==> r.speech == Welcome + InvitationToAsk && r.card == SimpleCard(AppName, r.speech)
    ensures !session.LoggedIn() ==> r.speech == Welcome + LoginToContinue && r.card == LinkAccountCard
  {
    if session.LoggedIn() then
      Prompt(Welcome + InvitationToAsk, Welcome + InvitationToAsk)
    else
      var speech := Welcome + LoginToContinue;
      Question(speech, speech, LinkAccountCard)
  }

  /** `help`: a statement that ends the session and suggests asking for the count. */
  function Help(): (r: Response)
    ensures r.Statement? && r.speech == HelpText && r.card == SimpleCard(AppName, HelpText)
  {
    Say(HelpText)
  }

  const Founded := "<p>Founded by Harvard University and MIT in 2012, " + SpokenName
    + " is an online learning destination and MOOC provider, offering high-quality courses from the world's"
    + " best universities and institutions to learners everywhere.</p>"
  const Mission := "<p>The mission of " + SpokenName
    + " is to Increase access to high-quality education for everyone everywhere, Enhance teaching and"
    + " learning on campus and online, and Advance teaching and learning through research</p>"

  /** `about`: the founding and the mission of the platform, closed by the
      re-prompt; it keeps the session open. */
  function About(): (r: Response)
    ensures r.Question? && r.reprompt == Reprompt && r.card == SimpleCard(AppName, r.speech)
    ensures r.speech == "<speak>" + Founded + Mission + Reprompt + "</speak>"
  {
    Prompt("<speak>" + Founded + Mission + Reprompt + "</speak>", Reprompt)
  }

  /** `unenroll`: the refusal that ends the session. */
  function Unenroll(): (r: Response)
    ensures r.Statement? && r.speech == UnenrollRefusal && r.card == SimpleCard(AppName, UnenrollRefusal)
  {
    Say(UnenrollRefusal)
  }

  /** `end`, for both cancel and no: help on a new session, otherwise "Okay". */
  function End(session: Session): (r: Response)
    ensures session.isNew ==> r == Help()
    ensures !session.isNew ==> r == Say("Okay")
  {
    if session.isNew then Help() else Say("Okay")
  }

  /** `enroll`: without a token nothing is posted; otherwise the learner is
      enrolled in the fixed course, and a failed post gives the retry message. */
  function Enroll(session: Session, change: Upstream<()>): (t: Turn)
    ensures !session.LoggedIn() ==> t == Turn([], Speak(LoginRequired(LoginToEnroll)))
    ensures session.LoggedIn() ==> t.calls == [PostEnrollmentChange(EnrollUserBody())]
    ensures forall c | c in t.calls :: c.UsesLearnerToken() ==> session.LoggedIn()
    ensures session.LoggedIn() && change.Failed? ==> t.reply == Speak(Say(ServerError))
    ensures session.LoggedIn() && change.Answered? ==>
      t.reply == Speak(Prompt(EnrolledInVoting + Reprompt, Reprompt))
  {
    if !session.LoggedIn() then Turn([], Speak(LoginRequired(LoginToEnroll)))
    else
      var calls := [PostEnrollmentChange(EnrollUserBody())];
      match change
      case Failed => Turn(calls, Speak(Say(ServerError)))
      case Answered(_) => Turn(calls, Speak(Prompt(EnrolledInVoting + Reprompt, Reprompt)))
  }

  /** What a count turn does: no call without a token; otherwise one listing
      call, the retry statement on failure, the not-enrolled statement for no
      enrollments, and for N >= 1 the count question with the fetched set
      stored under the enrollments key. Only that last path writes the session. */
  predicate CountTurn(session: Session, listing: Upstream<seq<LmsEnrollment>>,
                      before: map<string, EnrollmentSet>, after: map<string, EnrollmentSet>, t: Turn)
  {
    && (!session.LoggedIn() ==>
          t == Turn([], Speak(LoginRequired(LoginForStatus))) && after == before)
    && (session.LoggedIn() ==> t.calls == [FetchEnrollments])
    && (session.LoggedIn() && listing.Failed? ==>
          t.reply == Speak(Say(ServerError)) && after == before)
    && (session.LoggedIn() && listing.Answered? ==>
          var fetched := FromCourseIds(CourseIds(listing.body));
          if Count(fetched) == 0 then
            t.reply == Speak(Say(NotEnrolled)) && after == before
          else
            && t.reply == Speak(Prompt(CountQuestion(Count(fetched)), CountQuestion(Count(fetched))))
            && after == before[EnrollmentsKey := fetched])
  }

  /** `enrollments`: counts the enrollments; when there is at least one, keeps
      the set in the session and asks whether to list them. */
  method Enrollments(session: Session, listing: Upstream<seq<LmsEnrollment>>) returns (t: Turn)
    modifies session
    ensures CountTurn(session, listing, old(session.attributes), session.attributes, t)
    ensures forall c | c in t.calls :: c.UsesLearnerToken() ==> session.LoggedIn()
    ensures session.attributes != old(session.attributes) ==> t.reply.Speak? && t.reply.response.Question?
    ensures old(session.StoredSetNonEmpty()) ==> session.StoredSetNonEmpty()
  {
    if !session.LoggedIn() {
      return Turn([], Speak(LoginRequired(LoginForStatus)));
    }
    var calls := [FetchEnrollments];
    var fetched := GetEnrollments(listing);
    if fetched.Err? {
      return Turn(calls, Speak(Say(ServerError)));
    }
    var enrollments := fetched.value;
    var count := Count(enrollments);
    if count == 0 {
      return Turn(calls, Speak(Say(NotEnrolled)));
    }
    var speech := CountQuestion(count);
    session.attributes := session.attributes[EnrollmentsKey := enrollments];
    return Turn(calls, Speak(Prompt(speech, speech)));
  }

  /** What a yes turn does: help on a new session; a `KeyError` when no set
      is kept; otherwise one catalog lookup for the kept keys, where a failed
      join or an untitled record escapes with the session untouched, and
      success lists the titles and keeps the titled set in the session. */
  predicate YesTurn(session: Session, catalog: Upstream<seq<CourseRun>>,
                    before: map<string, EnrollmentSet>, after: map<string, EnrollmentSet>, t: Turn)
  {
    && (session.isNew ==> t == Turn([], Speak(Help())) && after == before)
    && (!session.isNew && EnrollmentsKey !in before ==>
          t == Turn([], Uncaught(MissingSessionEnrollments)) && after == before)
    && (!session.isNew && EnrollmentsKey in before ==>
          var kept := before[EnrollmentsKey];
          var joined := JoinTitles(kept, catalog);
          && t.calls == [LookUpCourseRuns(Text.Join(kept.order, ','))]
          && (joined.Err? ==>
                t.reply == Uncaught(Escaped(joined.error)) && after == before)
          && (joined.Ok? && !AllTitled(joined.value) ==>
                t.reply == Uncaught(MissingTitle(FirstUntitled(joined.value)))
                && after == before)
          && (joined.Ok? && AllTitled(joined.value) ==>
                t.reply == Speak(Prompt(YesSpeech(Titles(joined.value)), Reprompt))
                && after == before[EnrollmentsKey := joined.value]))
  }

  /** `continue_interaction`, the answer to yes: help on a new session;
      otherwise joins the set kept in the session with the catalog titles and
      lists them. In the source the join updates the kept dict in place, so
      the session carries the titled set afterwards; the model writes that
      set back explicitly. */
  method ContinueInteraction(session: Session, catalog: Upstream<seq<CourseRun>>) returns (t: Turn)
    modifies session
    ensures YesTurn(session, catalog, old(session.attributes), session.attributes, t)
    ensures forall c | c in t.calls :: !c.UsesLearnerToken()
    ensures session.attributes != old(session.attributes) ==> t.reply.Speak? && t.reply.response.Question?
    ensures t.reply.Uncaught? ==> session.attributes == old(session.attributes)
    ensures old(session.StoredSetNonEmpty()) ==> session.StoredSetNonEmpty()
  {
    if session.isNew {
      return Turn([], Speak(Help()));
    }
    if EnrollmentsKey !in session.attributes {
      return Turn([], Uncaught(MissingSessionEnrollments));
    }
    var keys, joined := GetCourseNames(session.attributes[EnrollmentsKey], catalog);
    var calls := [LookUpCourseRuns(keys)];
    if joined.Err? {
      return Turn(calls, Uncaught(Escaped(joined.error)));
    }
    var spoken := AppendTitles("<speak><p>Your courses include</p>", joined.value);
    if spoken.Err? {
      return Turn(calls, Uncaught(MissingTitle(spoken.error)));
    }
    EnrichTitles(session.attributes[EnrollmentsKey], catalog.body);
    session.attributes := session.attributes[EnrollmentsKey := joined.value];
    var speech := spoken.value + Reprompt + "</speak>";
    return Turn(calls, Speak(Prompt(speech, Reprompt)));
  }

  /** What a list turn does: no call without a token; the retry statement
      when the LMS fails; otherwise one catalog lookup, where a failed join
      escapes, no enrollments give the not-enrolled statement, an untitled
      record escapes, and otherwise the count header and the titles. */
  predicate ListTurn(session: Session, listing: Upstream<seq<LmsEnrollment>>,
                     catalog: Upstream<seq<CourseRun>>, t: Turn)
  {
    && (!session.LoggedIn() ==> t == Turn([], Speak(LoginRequired(LoginForStatus))))
    && (session.LoggedIn() && listing.Failed? ==> t == Turn([FetchEnrollments], Speak(Say(ServerError))))
    && (session.LoggedIn() && listing.Answered? ==>
          var fetched := FromCourseIds(CourseIds(listing.body));
          var joined := JoinTitles(fetched, catalog);
          && t.calls == [FetchEnrollments, LookUpCourseRuns(Text.Join(fetched.order, ','))]
          && (joined.Err? ==> t.reply == Uncaught(Escaped(joined.error)))
          && (joined.Ok? && Count(joined.value) == 0 ==> t.reply == Speak(Say(NotEnrolled)))
          && (joined.Ok? && Count(joined.value) > 0 && !AllTitled(joined.value) ==>
                t.reply == Uncaught(MissingTitle(FirstUntitled(joined.value))))
          && (joined.Ok? && Count(joined.value) > 0 && AllTitled(joined.value) ==>
                t.reply == Speak(Prompt(ListSpeech(Titles(joined.value)), Reprompt))))
  }

  /** `list_enrollments`: fetches the enrollments, joins them with the catalog
      titles and lists them in one turn. Only the LMS failure is caught; a
      catalog failure or an unknown catalog key escapes, even when there are no
      enrollments. The session is never written. */
  method ListEnrollments(session: Session, listing: Upstream<seq<LmsEnrollment>>,
                         catalog: Upstream<seq<CourseRun>>) returns (t: Turn)
    ensures ListTurn(session, listing, catalog, t)
    ensures forall c | c in t.calls :: c.UsesLearnerToken() ==> session.LoggedIn()
  {
    if !session.LoggedIn() {
      return Turn([], Speak(LoginRequired(LoginForStatus)));
    }
    var fetched := GetEnrollments(listing);
    if fetched.Err? {
      return Turn([FetchEnrollments], Speak(Say(ServerError)));
    }
    var keys, joined := GetCourseNames(fetched.value, catalog);
    var calls := [FetchEnrollments, LookUpCourseRuns(keys)];
    if joined.Err? {
      return Turn(calls, Uncaught(Escaped(joined.error)));
    }
    var enrollments := joined.value;
    var count := Count(enrollments);
    if count == 0 {
      return Turn(calls, Speak(Say(NotEnrolled)));
    }
    var header := ListLead + Counted(count, OneListed, SomeListed) + "</p>";
    var spoken := AppendTitles(header, enrollments);
    if spoken.Err? {
      return Turn(calls, Uncaught(MissingTitle(spoken.error)));
    }
    var speech := spoken.value + Reprompt + "</speak>";
    return Turn(calls, Speak(Prompt(speech, Reprompt)));
  }

  /** What a search turn does: one catalog search with the fixed filters; a
      failure escapes, and otherwise the answer speaks the titles found. */
  predicate SearchTurn(subject: string, results: Upstream<seq<SearchResult>>, t: Turn) {
    && t.calls == [SearchCatalog(SearchParams(subject))]
    && (results.Failed? ==> t.reply == Uncaught(Escaped(CatalogUnavailable)))
    && (results.Answered? ==> t.reply == Speak(Say(SearchSpeech(subject, SearchTitles(results.body)))))
  }

  /** `search`: asks the catalog about the subject and speaks one element per
      course found, in the catalog's order. A catalog failure escapes. */
  method Search(subject: string, results: Upstream<seq<SearchResult>>) returns (t: Turn)
    ensures SearchTurn(subject, results, t)
    ensures forall c | c in t.calls :: !c.UsesLearnerToken()
  {
    var calls := [SearchCatalog(SearchParams(subject))];
    if results.Failed? {
      return Turn(calls, Uncaught(Escaped(CatalogUnavailable)));
    }
    var courses := results.body;
    var count := |courses|;
    var speech: string;
    if count == 0 {
      speech := NothingFound + subject;
    } else {
      var word := Counted(count, "course about " + subject + ". It is", "courses about " + subject + ". They are");
      speech := Text.AppendParagraphs(SearchLead + word + "</p>", SearchTitles(courses));
      speech := speech + "</speak>";
    }
    return Turn(calls, Speak(Say(speech)));
  }

  /** The requests the skill handles. */
  datatype Intent =
    | LaunchRequest
    | EnrollmentsIntent
    | EnrollIntent
    | UnenrollIntent
    | CancelIntent
    | NoIntent
    | YesIntent
    | ListEnrollmentsIntent
    | AboutIntent
    | SearchIntent(subject: string)
    | HelpIntent
  {
    /** The intents whose handler checks for the learner's token first. */
    predicate ChecksToken() {
      EnrollmentsIntent? || EnrollIntent? || ListEnrollmentsIntent?
    }
  }

  /** The turn each intent's handler gives, with the session attributes
      before and after it: they change only through the count and yes
      handlers, and every other intent leaves them as they were. */
  predicate Handled(intent: Intent, session: Session, up: Upstreams,
                    before: map<string, EnrollmentSet>, after: map<string, EnrollmentSet>, t: Turn)
  {
    match intent
    case EnrollmentsIntent => CountTurn(session, up.listing, before, after, t)
    case YesIntent => YesTurn(session, up.courseRuns, before, after, t)
    case LaunchRequest => after == before && t == Turn([], Speak(Launch(session)))
    case EnrollIntent => after == before && t == Enroll(session, up.change)
    case UnenrollIntent => after == before && t == Turn([], Speak(Unenroll()))
    case CancelIntent => after == before && t == Turn([], Speak(End(session)))
    case NoIntent => after == before && t == Turn([], Speak(End(session)))
    case ListEnrollmentsIntent => after == before && ListTurn(session, up.listing, up.courseRuns, t)
    case AboutIntent => after == before && t == Turn([], Speak(About()))
    case SearchIntent(subject) => after == before && SearchTurn(subject, up.search, t)
    case HelpIntent => after == before && t == Turn([], Speak(Help()))
  }

  /** Across handlers, the session is written only by a count or a yes that
      answers with a question, never by a turn that escapes, and a kept set
      stays non-empty. */
  lemma SessionGuarantees(intent: Intent, session: Session, up: Upstreams,
                          before: map<string, EnrollmentSet>, after: map<string, EnrollmentSet>, t: Turn)
    requires Handled(intent, session, up, before, after, t)
    ensures t.reply.Uncaught? ==> after == before
    ensures after != before ==>
      (intent.EnrollmentsIntent? || intent.YesIntent?) && t.reply.Speak? && t.reply.response.Question?
    ensures StoreNonEmpty(before) ==> StoreNonEmpty(after)
  {
    if intent.YesIntent? && !session.isNew && EnrollmentsKey in before {
      var kept := before[EnrollmentsKey];
      if JoinTitles(kept, up.courseRuns).Ok? {
        EnrichTitles(kept, up.courseRuns.body);
      }
    }
  }

  /** Across handlers: no LMS call is made without the learner's token; the
      token-checking intents share one login path and one retry message; no
      enrollments give one not-enrolled message; unenrolling always refuses;
      and a new session gets help. */
  lemma ReplyGuarantees(intent: Intent, session: Session, up: Upstreams,
                        before: map<string, EnrollmentSet>, after: map<string, EnrollmentSet>, t: Turn)
    requires Handled(intent, session, up, before, after, t)
    ensures forall c | c in t.calls :: c.UsesLearnerToken() ==> session.LoggedIn()
    ensures intent.ChecksToken() && !session.LoggedIn() ==>
      && t.calls == []
      && t.reply.Speak? && t.reply.response.Statement? && t.reply.response.card == LinkAccountCard
      && after == before
    ensures (&& intent.ChecksToken() && session.LoggedIn()
             && (if intent.EnrollIntent? then up.change.Failed? else up.listing.Failed?)) ==>
      t.reply == Speak(Say(ServerError)) && after == before
    ensures (&& (intent.EnrollmentsIntent? || intent.ListEnrollmentsIntent?) && session.LoggedIn()
             && up.listing == Answered([])
             && (intent.ListEnrollmentsIntent? ==> up.courseRuns == Answered([]))) ==>
      t.reply == Speak(Say(NotEnrolled)) && after == before
    ensures intent.UnenrollIntent? ==> t == Turn([], Speak(Unenroll())) && after == before
    ensures (intent.CancelIntent? || intent.NoIntent? || intent.YesIntent?) && session.isNew ==>
      t == Turn([], Speak(Help())) && after == before
    ensures intent.YesIntent? && !session.isNew && EnrollmentsKey !in before ==>
      t == Turn([], Uncaught(MissingSessionEnrollments))
  {
  }

  /** Routes a request to its handler and gives that handler's turn. The
      guarantees below hold across handlers: the session is written only by a
      count or a yes that answers; a stored set stays non-empty; no LMS call is
      made without the learner's token; the token-checking intents share one
      login path and one retry message; unenrolling always refuses. */
  method Dispatch(intent: Intent, session: Session, up: Upstreams) returns (t: Turn)
    modifies session
    ensures Handled(intent, session, up, old(session.attributes), session.attributes, t)
    ensures t.reply.Uncaught? ==> session.attributes == old(session.attributes)
    ensures session.attributes != old(session.attributes) ==>
      (intent.EnrollmentsIntent? || intent.YesIntent?) && t.reply.Speak? && t.reply.response.Question?
    ensures old(session.StoredSetNonEmpty()) ==> session.StoredSetNonEmpty()
    ensures forall c | c in t.calls :: c.UsesLearnerToken() ==> session.LoggedIn()
    ensures intent.ChecksToken() && !session.LoggedIn() ==>
      && t.calls == []
      && t.reply.Speak? && t.reply.response.Statement? && t.reply.response.card == LinkAccountCard
      && session.attributes == old(session.attributes)
    ensures (&& intent.ChecksToken() && session.LoggedIn()
             && (if intent.EnrollIntent? then up.change.Failed? else up.listing.Failed?)) ==>
      t.reply == Speak(Say(ServerError)) && session.attributes == old(session.attributes)
    ensures (&& (intent.EnrollmentsIntent? || intent.ListEnrollmentsIntent?) && session.LoggedIn()
             && up.listing == Answered([])
             && (intent.ListEnrollmentsIntent? ==> up.courseRuns == Answered([]))) ==>
      t.reply == Speak(Say(NotEnrolled)) && session.attributes == old(session.attributes)
    ensures intent.UnenrollIntent? ==> t == Turn([], Speak(Unenroll())) && session.attributes == old(session.attributes)
    ensures (intent.CancelIntent? || intent.NoIntent? || intent.YesIntent?) && session.isNew ==>
      t == Turn([], Speak(Help())) && session.attributes == old(session.attributes)
    ensures intent.YesIntent? && !session.isNew && EnrollmentsKey !in old(session.attributes) ==>
      t == Turn([], Uncaught(MissingSessionEnrollments))
  {
    match intent
    case LaunchRequest =>
      t := Turn([], Speak(Launch(session)));
    case EnrollmentsIntent =>
      t := Enrollments(session, up.listing);
    case EnrollIntent =>
      t := Enroll(session, up.change);
    case UnenrollIntent =>
      t := Turn([], Speak(Unenroll()));
    case CancelIntent =>
      t := Turn([], Speak(End(session)));
    case NoIntent =>
      t := Turn([], Speak(End(session)));
    case YesIntent =>
      t := ContinueInteraction(session, up.courseRuns);
    case ListEnrollmentsIntent =>
      t := ListEnrollments(session, up.listing, up.courseRuns);
    case AboutIntent =>
      t := Turn([], Speak(About()));
    case SearchIntent(subject) =>
      t := Search(subject, up.search);
    case HelpIntent =>
      t := Turn([], Speak(Help()));
    SessionGuarantees(intent, session, up, old(session.attributes), session.attributes, t);
    ReplyGuarantees(intent, session, up, old(session.attributes), session.attributes, t);
  }
}
