/** The canned AI guidance chat: a keyword classifier over the lower-cased
    message, role-specific replies with follow-up suggestions, and the message
    log kept by the chat panel. */
module AiGuidance {
  import opened Options
  import opened Text

  datatype Role = Student | Parent | Government

  function RoleName(r: Role): string {
    match r
    case Student => "student"
    case Parent => "parent"
    case Government => "government"
  }

  /** What a message is taken to be about, in the order the classifier tries. */
  datatype Intent = Roi | Career | Dashboard | Course | Salary | General

  /** The keyword groups, in priority order. */
  const Groups: seq<(Intent, seq<string>)> := [
    (Roi, ["roi", "return", "investment"]),
    (Career, ["career", "job", "profession"]),
    (Dashboard, ["dashboard", "feature", "navigate"]),
    (Course, ["course", "degree", "college"]),
    (Salary, ["salary", "earning", "income"])
  ]

  /** `message.includes(a) || message.includes(b) || ...` */
  predicate MentionsAny(message: string, keywords: seq<string>) {
    exists k :: 0 <= k < |keywords| && Contains(message, keywords[k])
  }

  /** The branch chain of `getContextualResponse`: the first keyword test that
      succeeds decides the reply. */
  function Classify(message: string): Intent {
    if Contains(message, "roi") || Contains(message, "return") || Contains(message, "investment") then Roi
    else if Contains(message, "career") || Contains(message, "job") || Contains(message, "profession") then Career
    else if Contains(message, "dashboard") || Contains(message, "feature") || Contains(message, "navigate") then Dashboard
    else if Contains(message, "course") || Contains(message, "degree") || Contains(message, "college") then Course
    else if Contains(message, "salary") || Contains(message, "earning") || Contains(message, "income") then Salary
    else General
  }

  /** Reference reading: the intent of the first group, in priority order, with
      a keyword that occurs in the message; General when there is none. */
  function FirstMatch(groups: seq<(Intent, seq<string>)>, message: string): Intent
    decreases |groups|
  {
    if groups == [] then General
    else if MentionsAny(message, groups[0].1) then groups[0].0
    else FirstMatch(groups[1..], message)
  }

  lemma MentionsThree(message: string, a: string, b: string, c: string)
    ensures MentionsAny(message, [a, b, c]) <==> Contains(message, a) || Contains(message, b) || Contains(message, c)
  {
    var ks := [a, b, c];
    if Contains(message, a) { assert Contains(message, ks[0]); }
    if Contains(message, b) { assert Contains(message, ks[1]); }
    if Contains(message, c) { assert Contains(message, ks[2]); }
  }

  /** The if-chain is the first-matching-group rule over the keyword table: a
      message mentioning several groups gets the earliest group's reply. */
  lemma ClassifyIsFirstMatch(message: string)
    ensures Classify(message) == FirstMatch(Groups, message)
    ensures forall g :: 0 <= g < |Groups| && Groups[g].0 == Classify(message) ==>
              MentionsAny(message, Groups[g].1) && forall h :: 0 <= h < g ==> !MentionsAny(message, Groups[h].1)
    ensures Classify(message) == General <==> forall g :: 0 <= g < |Groups| ==> !MentionsAny(message, Groups[g].1)
  {
    MentionsThree(message, "roi", "return", "investment");
    MentionsThree(message, "career", "job", "profession");
    MentionsThree(message, "dashboard", "feature", "navigate");
    MentionsThree(message, "course", "degree", "college");
    MentionsThree(message, "salary", "earning", "income");
    assert Groups[1..][1..][1..][1..][1..] == [];
  }

  /** The follow-up suggestions offered under a reply. */
  datatype Suggestion =
    | WhatCareerIsRight
    | HowToCalculateRoi
    | BestJobProspects
    | ExploreDashboardFeatures
    | EvaluateChildsOptions
    | WhatRoiMeans
    | BestReturnDegrees
    | SupportChildsPlanning
    | EnrollmentTrends
    | MarketSkillGaps
    | ImproveGuidance
    | ExplainAnalytics
    | ShowRoiCalculator
    | CompareDegreeRois
    | RoiFactors
    | TakeCareerQuiz
    | TrendingCareers
    | SkillsInDemand
    | ExplainRecommendations
    | UseCareerPath
    | EngineeringVsMedical
    | CourseRoiData
    | EmergingFields
    | SalaryTrends
    | EarningPotential
    | SkillsRaisingSalary

  /** The text of a suggestion, which clicking it puts in the input box. */
  function Phrase(s: Suggestion): string {
    match s
    case WhatCareerIsRight => "What career is right for me?"
    case HowToCalculateRoi => "How do I calculate education ROI?"
    case BestJobProspects => "Which courses have the best job prospects?"
    case ExploreDashboardFeatures => "Help me explore the dashboard features"
    case EvaluateChildsOptions => "How do I evaluate my child's career options?"
    case WhatRoiMeans => "What does ROI mean in education?"
    case BestReturnDegrees => "Which degrees offer the best returns?"
    case SupportChildsPlanning => "How can I support my child's career planning?"
    case EnrollmentTrends => "Show me enrollment trends"
    case MarketSkillGaps => "What are the skill gaps in the market?"
    case ImproveGuidance => "How can we improve career guidance?"
    case ExplainAnalytics => "Explain the dashboard analytics"
    case ShowRoiCalculator => "Show me the ROI calculator"
    case CompareDegreeRois => "Compare different degree ROIs"
    case RoiFactors => "What factors affect ROI?"
    case TakeCareerQuiz => "Take the career quiz"
    case TrendingCareers => "Show me trending careers"
    case SkillsInDemand => "What skills are in demand?"
    case ExplainRecommendations => "Explain the recommendations"
    case UseCareerPath => "How do I use the career path?"
    case EngineeringVsMedical => "Compare engineering vs medical"
    case CourseRoiData => "Show me course ROI data"
    case EmergingFields => "What are emerging fields?"
    case SalaryTrends => "Show salary trends by field"
    case EarningPotential => "Calculate my earning potential"
    case SkillsRaisingSalary => "What skills increase salary?"
  }

  /** Which canned text a message carries: the welcome for a role, or the reply
      for an intent written for one role (`None` when the text is shared). */
  datatype Prose = Welcome(role: Role) | Answer(intent: Intent, audience: Option<Role>)

  datatype Reply = Reply(content: Prose, suggestions: seq<Suggestion>)

  /** `getInitialSuggestions`. */
  function InitialSuggestions(role: Role): (r: seq<Suggestion>)
    ensures |r| == 4
  {
    match role
    case Student => [WhatCareerIsRight, HowToCalculateRoi,
                     BestJobProspects, ExploreDashboardFeatures]
    case Parent => [EvaluateChildsOptions, WhatRoiMeans,
                    BestReturnDegrees, SupportChildsPlanning]
    case Government => [EnrollmentTrends, MarketSkillGaps,
                        ImproveGuidance, ExplainAnalytics]
  }

  /** The reply of each branch of `getContextualResponse`. */
  function ReplyFor(intent: Intent, role: Role): Reply {
    match intent
    case Roi =>
      Reply(Answer(Roi, if role == Parent then Some(Parent) else None),
            [ShowRoiCalculator, CompareDegreeRois, RoiFactors])
    case Career =>
      Reply(Answer(Career, if role == Student then Some(Student) else None),
            [TakeCareerQuiz, TrendingCareers, SkillsInDemand])
    case Dashboard =>
      Reply(Answer(Dashboard, Some(role)),
            [ShowRoiCalculator, ExplainRecommendations, UseCareerPath])
    case Course =>
      Reply(Answer(Course, if role == Parent then Some(Parent) else None),
            [EngineeringVsMedical, CourseRoiData, EmergingFields])
    case Salary =>
      Reply(Answer(Salary, None),
            [SalaryTrends, EarningPotential, SkillsRaisingSalary])
    case General =>
      Reply(Answer(General, Some(role)), InitialSuggestions(role))
  }

  /** `getContextualResponse` on an already lower-cased message. */
  function ContextualResponse(message: string, role: Role): Reply {
    ReplyFor(Classify(message), role)
  }

  /** `generateAIResponse` without the delay: the message is lower-cased (ASCII
      letters only) before it is classified. */
  function Respond(userMessage: string, role: Role): Reply {
    ContextualResponse(Lower(userMessage), role)
  }

  /** Every reply answers the intent it was given; a keyword branch offers
      exactly three suggestions and the fallback offers the role's four initial
      ones. */
  lemma ReplyShape(intent: Intent, role: Role)
    ensures ReplyFor(intent, role).content.Answer? && ReplyFor(intent, role).content.intent == intent
    ensures intent != General ==> |ReplyFor(intent, role).suggestions| == 3
    ensures intent == General ==> ReplyFor(intent, role).suggestions == InitialSuggestions(role)
  {
  }

  /** Only the dashboard and fallback replies, and the parent's (for ROI and
      course questions) and the student's (for career questions) texts, depend
      on the role; salary replies never do. */
  lemma ReplyAudience(intent: Intent, r1: Role, r2: Role)
    ensures intent == Salary ==> ReplyFor(intent, r1) == ReplyFor(intent, r2)
    ensures (intent == Roi || intent == Course) && r1 != Parent && r2 != Parent ==>
              ReplyFor(intent, r1) == ReplyFor(intent, r2)
    ensures intent == Career && r1 != Student && r2 != Student ==> ReplyFor(intent, r1) == ReplyFor(intent, r2)
    ensures (intent == Dashboard || intent == General) && r1 != r2 ==> ReplyFor(intent, r1) != ReplyFor(intent, r2)
  {
  }

  /** Matching is by substring, so "android" is an ROI question. */
  lemma AndroidIsRoi()
    ensures Classify("android") == Roi
  {
    assert OccursAt("android", "roi", 3);
  }

  /** A message touching ROI and careers gets the ROI reply, which comes first. */
  lemma RoiBeforeCareer()
    ensures Classify("roi of a career") == Roi
  {
    assert OccursAt("roi of a career", "roi", 0);
  }

  /** A keyword longer than the message cannot occur in it. */
  lemma TooLong(message: string, keyword: string)
    requires |keyword| > |message|
    ensures !Contains(message, keyword)
  {
  }

  /** A greeting matches no keyword and gets the fallback with the role's four
      initial suggestions. */
  lemma GreetingFallsBack(role: Role)
    ensures Classify("hi") == General
    ensures ContextualResponse("hi", role).suggestions == InitialSuggestions(role)
  {
    TooLong("hi", "roi");
    TooLong("hi", "return");
    TooLong("hi", "investment");
    TooLong("hi", "career");
    TooLong("hi", "job");
    TooLong("hi", "profession");
    TooLong("hi", "dashboard");
    TooLong("hi", "feature");
    TooLong("hi", "navigate");
    TooLong("hi", "course");
    TooLong("hi", "degree");
    TooLong("hi", "college");
    TooLong("hi", "salary");
    TooLong("hi", "earning");
    TooLong("hi", "income");
  }

  datatype Sender = User | Ai

  /** A chat message; ids and timestamps come from the clock and are left out. */
  datatype Message = Message(sender: Sender, text: string, canned: Option<Prose>, suggestions: seq<Suggestion>)

  function UserMessage(text: string): Message {
    Message(User, text, None, [])
  }

  function ReplyMessage(reply: Reply): Message {
    Message(Ai, "", Some(reply.content), reply.suggestions)
  }

  /** `getWelcomeMessage`. */
  function WelcomeMessage(role: Role): (m: Message)
    ensures m.sender == Ai && m.suggestions == InitialSuggestions(role)
  {
    Message(Ai, "", Some(Welcome(role)), InitialSuggestions(role))
  }

  /** What `localStorage` held under the role's key when the panel mounted. */
  datatype StoredHistory = NothingStored | Parsed(messages: seq<Message>) | Unparsable

  /** The `localStorage` key of a role's chat history. */
  function StorageKey(role: Role): (k: string)
    ensures StartsWith(k, "ai-chat-")
  {
    "ai-chat-" + RoleName(role)
  }

  /** Each role keeps its own history. */
  lemma StorageKeysDistinct(r1: Role, r2: Role)
    requires r1 != r2
    ensures StorageKey(r1) != StorageKey(r2)
  {
    assert |StorageKey(r1)| != |StorageKey(r2)|;
  }

  /** The save effect: the history is written under the role's key only when
      there is at least one message. */
  function Persisted(store: map<string, seq<Message>>, role: Role, messages: seq<Message>): (r: map<string, seq<Message>>)
    ensures messages == [] ==> r == store
    ensures messages != [] ==> StorageKey(role) in r && r[StorageKey(role)] == messages
    ensures forall k :: k != StorageKey(role) ==> (k in r <==> k in store) && (k in store ==> r[k] == store[k])
  {
    if |messages| > 0 then store[StorageKey(role) := messages] else store
  }

  /** The chat panel's state for one role. `isTyping` is set while a reply is
      being prepared; the text box and the Send button are disabled meanwhile. */
  class ChatSession {
    const role: Role
    var messages: seq<Message>
    var inputValue: string
    var isTyping: bool

    /** Mounting loads the stored history, or starts with the welcome message
        when nothing is stored; an unparsable history leaves the log empty. */
    constructor (role: Role, stored: StoredHistory)
      ensures this.role == role && inputValue == "" && !isTyping
      ensures stored == NothingStored ==> messages == [WelcomeMessage(role)]
      ensures stored.Parsed? ==> messages == stored.messages
      ensures stored == Unparsable ==> messages == []
    {
      this.role := role;
      inputValue := "";
      isTyping := false;
      match stored
      case NothingStored => messages := [WelcomeMessage(role)];
      case Parsed(ms) => messages := ms;
      case Unparsable => messages := [];
    }

    /** Typing into the box, which is disabled while a reply is pending. */
    method Type(value: string)
      modifies this
      ensures isTyping == old(isTyping) && messages == old(messages)
      ensures old(isTyping) ==> inputValue == old(inputValue)
      ensures !old(isTyping) ==> inputValue == value
    {
      if !isTyping {
        inputValue := value;
      }
    }

    /** `handleSuggestionClick`: the suggestion buttons stay enabled while a
        reply is pending. */
    method SetInput(value: string)
      modifies this
      ensures inputValue == value && messages == old(messages) && isTyping == old(isTyping)
    {
      inputValue := value;
    }

    /** The synchronous part of `handleSendMessage`, up to the reply delay:
        nothing happens while a reply is pending (the button and the box are
        disabled) or for blank input; otherwise the trimmed input is logged as
        the user's message, the box is cleared and typing starts. Returns the
        text to reply to. */
    method SendMessage() returns (pending: Option<string>)
      modifies this
      ensures old(isTyping) || AllSpace(old(inputValue)) ==>
                pending == None && messages == old(messages) && inputValue == old(inputValue)
                && isTyping == old(isTyping)
      ensures !old(isTyping) && !AllSpace(old(inputValue)) ==>
                pending == Some(Trim(old(inputValue))) && Trim(old(inputValue)) != []
                && messages == old(messages) + [UserMessage(Trim(old(inputValue)))] && inputValue == ""
                && isTyping
    {
      if isTyping {
        pending := None;
        return;
      }
      TrimEmptyIffBlank(inputValue);
      var content := Trim(inputValue);
      if content == [] {
        pending := None;
        return;
      }
      messages := messages + [UserMessage(content)];
      inputValue := "";
      isTyping := true;
      pending := Some(content);
    }

    /** The rest of `handleSendMessage`, once the delay is over: typing stops
        and the reply is appended to the log. */
    method DeliverReply(userMessage: string)
      modifies this
      ensures messages == old(messages) + [ReplyMessage(Respond(userMessage, role))]
      ensures inputValue == old(inputValue) && !isTyping
    {
      isTyping := false;
      messages := messages + [ReplyMessage(Respond(userMessage, role))];
    }
  }

  /** A second message cannot be sent before the reply to the first arrives:
      on a fresh panel, sending "a", picking "b" and sending again logs only
      "a", and "b" waits in the box. */
  method SecondSendWaitsForReply() returns (log: seq<Message>, box: string)
    ensures log == [UserMessage("a")] && box == "b"
  {
    var chat := new ChatSession(Student, Parsed([]));
    chat.SetInput("a");
    assert Trim("a") == "a" by {
      assert !IsJsSpace('a');
    }
    var first := chat.SendMessage();
    chat.SetInput("b");
    var second := chat.SendMessage();
    log, box := chat.messages, chat.inputValue;
  }
}
