/** The campus chatbot endpoint (`backend/app/api/v1/chatbot.py`): a keyword
    gate in front of the language model, and the canned answers used when the
    model is not reachable. The model call's outcome is an input. */
module ChatbotApi {
  import opened Util

  const CampusKeywords: seq<string> := [
    "interview", "placement", "campus", "company", "round", "question",
    "preparation", "resume", "coding", "dsa", "technical", "hr", "managerial",
    "offer", "package", "rejection", "selected", "experience", "skill",
    "leetcode", "hackerrank", "codeforces", "project", "internship"]

  /** Some word of `words` occurs in `s`. */
  predicate AnyIn(words: seq<string>, s: string) {
    exists w :: w in words && Contains(s, w)
  }

  /** `is_campus_related`: the lower-cased message contains a keyword. */
  predicate IsCampusRelated(message: string) {
    AnyIn(CampusKeywords, Lower(message))
  }

  const Specialised: string :=
    "I'm CampusHire AI, specialized in helping with campus interview preparation. Please ask me questions about interviews, placements, preparation strategies, or company-specific guidance."
  const NoAnswer: string := "I apologize, but I couldn't generate a response. Please try again."

  const DsaWords: seq<string> := ["dsa", "data structure", "algorithm", "coding"]
  const ResumeWords: seq<string> := ["resume", "cv", "curriculum"]
  const HrWords: seq<string> := ["hr", "human resource", "behavioral"]
  const TechnicalWords: seq<string> := ["technical", "round", "interview"]

  const DsaTips: string :=
    "For DSA preparation, I recommend:\n1. Start with basics: Arrays, Strings, Linked Lists, Stacks, Queues\n2. Practice on platforms like LeetCode, HackerRank, Codeforces\n3. Focus on problem-solving patterns: Two Pointers, Sliding Window, Dynamic Programming\n4. Solve company-specific problems from previous experiences\n5. Time yourself while solving problems to improve speed"
  const ResumeTips: string :=
    "For resume tips:\n1. Keep it concise (1-2 pages)\n2. Highlight relevant projects and internships\n3. Include technical skills and programming languages\n4. Add achievements and certifications\n5. Tailor resume for each company\n6. Use action verbs and quantify achievements\n7. Ensure no grammatical errors"
  const HrTips: string :=
    "For HR round preparation:\n1. Prepare answers for common questions: Tell me about yourself, Why this company?\n2. Research the company's values and culture\n3. Prepare questions to ask the interviewer\n4. Practice STAR method for behavioral questions\n5. Be confident and maintain eye contact\n6. Show enthusiasm and genuine interest"
  const TechnicalTips: string :=
    "For technical interviews:\n1. Revise core CS fundamentals: OS, DBMS, Networks, OOP\n2. Practice coding problems daily\n3. Explain your thought process clearly\n4. Ask clarifying questions before solving\n5. Write clean, optimized code\n6. Test your solution with examples\n7. Discuss time and space complexity"
  const GeneralHelp: string :=
    "I'm here to help with campus interview preparation! You can ask me about:\n- DSA and coding preparation strategies\n- Technical interview tips\n- HR round guidance\n- Resume building advice\n- Company-specific preparation\n- Common interview questions\n- Mock interview practice\n\nWhat would you like to know?"

  /** The branch of `generate_fallback_response` a message takes. */
  datatype Tier = Dsa | Resume | Hr | Technical | General

  /** The first tier whose words occur in the lower-cased message. */
  function TierOf(message: string): (t: Tier)
    ensures t == Dsa <==> AnyIn(DsaWords, Lower(message))
    ensures t == Resume <==> !AnyIn(DsaWords, Lower(message)) && AnyIn(ResumeWords, Lower(message))
    ensures t == Hr <==> !AnyIn(DsaWords, Lower(message)) && !AnyIn(ResumeWords, Lower(message)) &&
                         AnyIn(HrWords, Lower(message))
    ensures t == Technical <==> !AnyIn(DsaWords, Lower(message)) && !AnyIn(ResumeWords, Lower(message)) &&
                                !AnyIn(HrWords, Lower(message)) && AnyIn(TechnicalWords, Lower(message))
  {
    var m := Lower(message);
    if AnyIn(DsaWords, m) then Dsa
    else if AnyIn(ResumeWords, m) then Resume
    else if AnyIn(HrWords, m) then Hr
    else if AnyIn(TechnicalWords, m) then Technical
    else General
  }

  /** Each tier's canned text: `generate_fallback_response(message)` is
      `TierText(TierOf(message))`. */
  function TierText(t: Tier): string {
    match t
    case Dsa => DsaTips
    case Resume => ResumeTips
    case Hr => HrTips
    case Technical => TechnicalTips
    case General => GeneralHelp
  }

  /** How the model call went: an HTTP status and the body's `response`
      field (absent or present), or an exception. */
  datatype ModelReply = Answered(status: int, response: Option<string>) | Raised

  /** Which text `bot_response` holds: the fixed off-topic answer, the
      model's own text, the default for a body without `response`, or a
      tier's canned text. `AnswerText` spells each out. */
  datatype Answer = OffTopicAnswer | ModelAnswer(text: string) | MissingAnswer | CannedAnswer(tier: Tier)

  function AnswerText(a: Answer): string {
    match a
    case OffTopicAnswer => Specialised
    case ModelAnswer(text) => text
    case MissingAnswer => NoAnswer
    case CannedAnswer(t) => TierText(t)
  }

  /** The `ChatResponse`; its `response` field is `AnswerText(answer)`. */
  datatype ChatResponse = ChatResponse(answer: Answer, conversationId: string)

  function ResponseText(r: ChatResponse): string {
    AnswerText(r.answer)
  }

  /** `request.conversation_id or "default"`. */
  function ConversationId(id: Option<string>): (r: string)
    ensures r != ""
    ensures id.Some? && id.value != "" ==> r == id.value
  {
    if id.Some? && id.value != "" then id.value else "default"
  }

  /** `chat_with_bot`. */
  function ChatOutcome(message: string, conversationId: Option<string>, reply: ModelReply): ChatResponse {
    if !IsCampusRelated(message) then ChatResponse(OffTopicAnswer, ConversationId(conversationId))
    else
      var answer := match reply
        case Answered(status, response) =>
          if status != 200 then CannedAnswer(TierOf(message))
          else if response.Some? then ModelAnswer(response.value)
          else MissingAnswer
        case Raised => CannedAnswer(TierOf(message));
      ChatResponse(answer, ConversationId(conversationId))
  }

  // ---------------------------------------------------------------------------
  // Properties

  /** A message off the topic gets the fixed answer whatever the model would
      have said: the model is not consulted. */
  lemma OffTopicNoModelCall(message: string, conversationId: Option<string>, r1: ModelReply, r2: ModelReply)
    requires !IsCampusRelated(message)
    ensures ChatOutcome(message, conversationId, r1) == ChatOutcome(message, conversationId, r2)
    ensures ChatOutcome(message, conversationId, r1).answer == OffTopicAnswer
  {
  }

  /** An on-topic message answered with status 200 gets the model's text, or
      the apology for a body without one. */
  lemma ModelAnswerKept(message: string, conversationId: Option<string>, response: Option<string>)
    requires IsCampusRelated(message)
    ensures ChatOutcome(message, conversationId, Answered(200, response)).answer ==
      if response.Some? then ModelAnswer(response.value) else MissingAnswer
  {
  }

  /** Every answer carries the request's conversation id, or "default". */
  lemma ConversationKept(message: string, conversationId: Option<string>, reply: ModelReply)
    ensures ChatOutcome(message, conversationId, reply).conversationId ==
      (if conversationId.Some? && conversationId.value != "" then conversationId.value else "default")
  {
  }

  /** With the model down, an on-topic message gets its tier's canned text. */
  lemma ModelDownFallback(message: string, conversationId: Option<string>, status: int, response: Option<string>)
    requires IsCampusRelated(message)
    ensures ChatOutcome(message, conversationId, Raised).answer == CannedAnswer(TierOf(message))
    ensures status != 200 ==>
      ChatOutcome(message, conversationId, Answered(status, response)).answer == CannedAnswer(TierOf(message))
  {
  }

  /** The keyword gate ignores case. */
  lemma GateIgnoresCase(message: string)
    ensures IsCampusRelated(Lower(message)) == IsCampusRelated(message)
  {
    LowerIdempotent(message);
  }

  /** More text never takes a message off the topic. */
  lemma GateMonotone(a: string, b: string)
    requires IsCampusRelated(a)
    ensures IsCampusRelated(a + b) && IsCampusRelated(b + a)
  {
    LowerAppend(a, b);
    LowerAppend(b, a);
    var w :| w in CampusKeywords && Contains(Lower(a), w);
    ContainsInPrefix(Lower(a), Lower(b), w);
    ContainsInSuffix(Lower(b), Lower(a), w);
  }

  /** The technical tier's words are all keywords, so a message in that tier
      always passes the gate; so does one in the resume tier through
      "resume" alone. */
  lemma TechnicalTierOnTopic(message: string)
    requires TierOf(message) == Technical || Contains(Lower(message), "resume")
    ensures IsCampusRelated(message)
  {
    assert "technical" in CampusKeywords && "round" in CampusKeywords && "interview" in CampusKeywords;
    assert "resume" in CampusKeywords;
  }

  /** The first tier wins: a message with "coding" gets the DSA text whatever else it says. */
  lemma CodingFirst(message: string)
    requires Contains(Lower(message), "coding")
    ensures TierOf(message) == Dsa
  {
    assert "coding" in DsaWords;
  }
}
