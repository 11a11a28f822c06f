/** The chat context: the list of chat sessions with one current session,
    the keyword intent classifier, the canned replies used when no Gemini key
    is configured, the prompt transcript sent when one is, and the two
    complaint templates offered to staff.

    Outside inputs are parameters: the Gemini key read from `localStorage`,
    the outcome of the Gemini request, the acting user and the complaint
    store, fresh ids from `generateId`, the clock, and the `Math.random()`
    draw that picks among equivalent canned replies. */
module ChatContext {

  import opened Wrappers
  import opened Text
  import opened Seqs
  import opened Rand
  import opened AuthContext
  import opened Data
  import opened ComplaintsContext

  datatype MessageRole = UserTurn | AssistantTurn | SystemTurn

  datatype ChatMessage = ChatMessage(id: string, role: MessageRole, content: string, timestamp: int)

  datatype ChatSession = ChatSession(id: string, messages: seq<ChatMessage>, title: string, createdAt: int, updatedAt: int)

  datatype AIAction = CreateComplaint | CheckStatus | SuggestSolution | GenerateResponse | SummarizeThread | RouteToDepartment

  // ---------------------------------------------------------------- intents

  const CreateKeywords: seq<string> := ["submit", "file", "new complaint", "report"]
  const StatusKeywords: seq<string> := ["status", "update", "progress", "check"]
  const SolutionKeywords: seq<string> := ["help", "solve", "fix", "solution"]
  const SummaryKeywords: seq<string> := ["summarize", "summary"]
  const RoutingKeywords: seq<string> := ["department", "who should", "contact"]

  /** One of `keywords` occurs in `text`. */
  predicate MentionsAny(text: string, keywords: seq<string>) {
    exists k :: 0 <= k < |keywords| && Contains(text, keywords[k])
  }

  /** `detectIntent`: the first keyword set, in the order create, status,
      solution, summary, routing, with a keyword occurring in the lower-cased
      message; `None` exactly when no keyword of any set occurs. It never
      yields `GenerateResponse`. */
  function DetectIntent(message: string): (r: Option<AIAction>)
    ensures var lower := ToLower(message);
            var create := MentionsAny(lower, CreateKeywords);
            var status := MentionsAny(lower, StatusKeywords);
            var solution := MentionsAny(lower, SolutionKeywords);
            var summary := MentionsAny(lower, SummaryKeywords);
            var routing := MentionsAny(lower, RoutingKeywords);
            && (create ==> r == Some(CreateComplaint))
            && (!create && status ==> r == Some(CheckStatus))
            && (!create && !status && solution ==> r == Some(SuggestSolution))
            && (!create && !status && !solution && summary ==> r == Some(SummarizeThread))
            && (!create && !status && !solution && !summary && routing ==> r == Some(RouteToDepartment))
            && (!create && !status && !solution && !summary && !routing ==> r == None)
    ensures r != Some(GenerateResponse)
  {
    var lower := ToLower(message);
    if MentionsAny(lower, CreateKeywords) then Some(CreateComplaint)
    else if MentionsAny(lower, StatusKeywords) then Some(CheckStatus)
    else if MentionsAny(lower, SolutionKeywords) then Some(SuggestSolution)
    else if MentionsAny(lower, SummaryKeywords) then Some(SummarizeThread)
    else if MentionsAny(lower, RoutingKeywords) then Some(RouteToDepartment)
    else None
  }

  /** Classification ignores letter case: messages that lower-case alike get
      the same intent, a message and its lower-cased form in particular. */
  lemma DetectIntentIgnoresCase(m1: string, m2: string)
    requires ToLower(m1) == ToLower(m2)
    ensures DetectIntent(m1) == DetectIntent(m2)
    ensures DetectIntent(ToLower(m1)) == DetectIntent(m1)
  {
    ToLowerIdempotent(m1);
  }

  /** First match wins: a message mentioning "report" is a request to create
      a complaint even when it also mentions "status". */
  lemma ReportWinsOverStatus(message: string)
    requires Contains(ToLower(message), "report") && Contains(ToLower(message), "status")
    ensures DetectIntent(message) == Some(CreateComplaint)
  {
    assert CreateKeywords[3] == "report";
  }

  /** A status keyword without any create keyword is a status check. */
  lemma StatusWithoutCreateIsCheck(message: string, k: nat)
    requires !MentionsAny(ToLower(message), CreateKeywords)
    requires k < |StatusKeywords| && Contains(ToLower(message), StatusKeywords[k])
    ensures DetectIntent(message) == Some(CheckStatus)
  {
  }

  /** A solution keyword outranks the summary and routing ones: "help me
      summarize" asks for a solution. */
  lemma HelpWinsOverSummary(message: string)
    requires !MentionsAny(ToLower(message), CreateKeywords) && !MentionsAny(ToLower(message), StatusKeywords)
    requires Contains(ToLower(message), "help")
    ensures DetectIntent(message) == Some(SuggestSolution)
  {
    assert SolutionKeywords[0] == "help";
  }

  // ---------------------------------------------------------- canned replies

  const Greetings: seq<string> := ["Hello! How can I help you today?", "Hi there! How may I assist you?"]
  const CreatePrompts: seq<string> := [
    "I can help you submit a complaint. Could you tell me what issue you're experiencing?",
    "I'd be happy to help you file a complaint. What seems to be the problem?"
  ]
  const SolutionPrompts: seq<string> := [
    "Based on your description, this might be a common issue. Have you tried...",
    "This sounds familiar. Many users solve this by..."
  ]
  const FaqBilling: string :=
    "For billing issues, please ensure your payment method is up to date. Most billing problems are resolved by updating your payment information."
  const FaqTechnical: string :=
    "For technical issues, try clearing your browser cache and cookies, then restart your browser. This resolves most technical problems."
  const FaqProduct: string :=
    "For product defects, please provide clear photos and the purchase date. This helps our team investigate your issue more efficiently."
  const FaqService: string :=
    "For service quality concerns, please provide the date, time, and details of your experience. This helps us address specific training opportunities."
  const NoComplaintsPrompt: string := "You don't have any complaints yet. Would you like to create one?"
  const LoginPrompt: string := "Please log in to check your complaint status."

  /** Four texts placed between fixed pieces all occur in the result. */
  lemma PlacedFour(g: string, x: string, b: string, y: string, c: string, z: string, d: string, w: string, e: string)
    ensures var r := g + x + b + y + c + z + d + w + e;
            Contains(r, x) && Contains(r, y) && Contains(r, z) && Contains(r, w)
  {
    ContainsEnd(g, x);
    ContainsExtended(g + x, x, b);
    ContainsEnd(g + x + b, y);
    ContainsExtended(g + x + b, x, y);
    ContainsExtended(g + x + b + y, x, c);
    ContainsExtended(g + x + b + y, y, c);
    ContainsEnd(g + x + b + y + c, z);
    ContainsExtended(g + x + b + y + c, x, z);
    ContainsExtended(g + x + b + y + c, y, z);
    ContainsExtended(g + x + b + y + c + z, x, d);
    ContainsExtended(g + x + b + y + c + z, y, d);
    ContainsExtended(g + x + b + y + c + z, z, d);
    ContainsEnd(g + x + b + y + c + z + d, w);
    ContainsExtended(g + x + b + y + c + z + d, x, w);
    ContainsExtended(g + x + b + y + c + z + d, y, w);
    ContainsExtended(g + x + b + y + c + z + d, z, w);
    ContainsExtended(g + x + b + y + c + z + d + w, x, e);
    ContainsExtended(g + x + b + y + c + z + d + w, y, e);
    ContainsExtended(g + x + b + y + c + z + d + w, z, e);
    ContainsExtended(g + x + b + y + c + z + d + w, w, e);
  }

  /** The status sentence: the number of visible complaints and the title and
      status of the first of them. */
  function StatusSentence(visible: seq<Complaint>): (r: string)
    requires visible != []
    ensures Contains(r, "complaint(s)")
    ensures Contains(r, NatToString(|visible|)) && Contains(r, visible[0].title)
    ensures Contains(r, StatusName(visible[0].status))
  {
    var count := NatToString(|visible|);
    var title := visible[0].title;
    var status := StatusName(visible[0].status);
    var g := "You have ";
    var b := " ";
    var y := "complaint(s)";
    var c := ". The most recent one is \"";
    var d := "\" with status \"";
    var e := "\".";
    PlacedFour(g, count, b, y, c, title, d, status, e);
    g + count + b + y + c + title + d + status + e
  }

  /** The FAQ answer a solution request gets, checked in the order billing,
      technical, product, service; `None` when no topic word occurs. */
  function FaqAnswer(lower: string): (r: Option<string>)
    ensures var billing := Contains(lower, "bill") || Contains(lower, "payment");
            var technical := Contains(lower, "technical") || Contains(lower, "software") || Contains(lower, "app");
            var product := Contains(lower, "product") || Contains(lower, "item");
            var service := Contains(lower, "service") || Contains(lower, "staff");
            && (billing ==> r == Some(FaqBilling))
            && (!billing && technical ==> r == Some(FaqTechnical))
            && (!billing && !technical && product ==> r == Some(FaqProduct))
            && (!billing && !technical && !product && service ==> r == Some(FaqService))
            && (!billing && !technical && !product && !service ==> r == None)
  {
    if Contains(lower, "bill") || Contains(lower, "payment") then Some(FaqBilling)
    else if Contains(lower, "technical") || Contains(lower, "software") || Contains(lower, "app") then Some(FaqTechnical)
    else if Contains(lower, "product") || Contains(lower, "item") then Some(FaqProduct)
    else if Contains(lower, "service") || Contains(lower, "staff") then Some(FaqService)
    else None
  }

  /** The technical words are tested before the product words: a message
      about a product app gets the technical answer. */
  lemma AppWinsOverProduct(lower: string)
    requires !Contains(lower, "bill") && !Contains(lower, "payment") && Contains(lower, "app")
    ensures FaqAnswer(lower) == Some(FaqTechnical)
  {
  }

  /** The reply `sendMessage` picks without a Gemini key. `complaints` is the
      store and `draw` the random pick among equivalent replies. */
  function FallbackReply(content: string, user: Option<User>, complaints: seq<Complaint>, draw: Unit): (r: string)
    ensures DetectIntent(content) == Some(CreateComplaint) ==> r in CreatePrompts
    ensures DetectIntent(content) == Some(CheckStatus) && user.None? ==> r == LoginPrompt
    ensures DetectIntent(content) == Some(CheckStatus) && user.Some? ==>
      var visible := FilteredComplaints(user, complaints);
      if visible == [] then r == NoComplaintsPrompt else r == StatusSentence(visible)
    ensures DetectIntent(content) == Some(SuggestSolution) ==>
      var faq := FaqAnswer(ToLower(content));
      if faq.Some? then r == faq.value else r in SolutionPrompts
    ensures DetectIntent(content) !in {Some(CreateComplaint), Some(CheckStatus), Some(SuggestSolution)} ==>
      r in Greetings
  {
    var intent := DetectIntent(content);
    if intent == Some(CreateComplaint) then Pick(CreatePrompts, draw)
    else if intent == Some(CheckStatus) then
      if user.Some? then
        var visible := FilteredComplaints(user, complaints);
        if |visible| > 0 then StatusSentence(visible) else NoComplaintsPrompt
      else LoginPrompt
    else if intent == Some(SuggestSolution) then
      match FaqAnswer(ToLower(content))
      case Some(answer) => answer
      case None => Pick(SolutionPrompts, draw)
    else Pick(Greetings, draw)
  }

  /** A signed-in `user` asking about status with at least one complaint of
      their own hears how many they have. */
  lemma StatusReplyCountsOwnComplaints(content: string, u: User, complaints: seq<Complaint>, draw: Unit)
    requires DetectIntent(content) == Some(CheckStatus) && u.role == EndUser
    requires exists c :: c in complaints && c.userId == u.id
    ensures var r := FallbackReply(content, Some(u), complaints, draw);
            Contains(r, "complaint(s)") &&
            Contains(r, NatToString(|GetUserComplaints(complaints, u.id)|))
  {
    var c :| c in complaints && c.userId == u.id;
    var visible := FilteredComplaints(Some(u), complaints);
    assert c in visible;
    assert visible == GetUserComplaints(complaints, u.id);
  }

  // ------------------------------------------------------------ the Gemini path

  const SystemPrompt: string := "You are a helpful and concise AI support assistant for ComplaintHub."
  const NoResponse: string := "Sorry, no response."
  const AssistantCue: string := "\nAssistant:"

  /** `User` for the user's turns and `Assistant` for all others, the system
      seed included. */
  function SpeakerLabel(role: MessageRole): (speaker: string)
    ensures speaker == "User" <==> role == UserTurn
    ensures speaker != "User" ==> speaker == "Assistant"
  {
    if role == UserTurn then "User" else "Assistant"
  }

  function TranscriptLine(m: ChatMessage): string {
    SpeakerLabel(m.role) + ": " + m.content
  }

  function TranscriptLines(messages: seq<ChatMessage>): (lines: seq<string>)
    ensures |lines| == |messages|
    ensures forall k :: 0 <= k < |messages| ==> lines[k] == TranscriptLine(messages[k])
  {
    seq(|messages|, k requires 0 <= k < |messages| => TranscriptLine(messages[k]))
  }

  /** The text of the single prompt part sent to Gemini: the system prompt,
      one "<speaker>: <content>" line per message, and a trailing
      "Assistant:" cue. */
  function Transcript(messages: seq<ChatMessage>): (r: string)
    ensures SystemPrompt + "\n" <= r
    ensures |SystemPrompt + "\n"| + |AssistantCue| <= |r| && r[|r| - |AssistantCue|..] == AssistantCue
    ensures r[|SystemPrompt + "\n"|..|r| - |AssistantCue|] == Join(TranscriptLines(messages), "\n")
    ensures forall k :: 0 <= k < |messages| ==> Contains(r, TranscriptLine(messages[k]))
  {
    var head := SystemPrompt + "\n";
    var lines := TranscriptLines(messages);
    var body := Join(lines, "\n");
    var r := head + body + AssistantCue;
    assert r[..|head|] == head;
    assert r[|r| - |AssistantCue|..] == AssistantCue;
    assert r[|head|..|r| - |AssistantCue|] == body;
    JoinContainsEach(lines, "\n");
    BodyLinesInTranscript(head, body, AssistantCue, lines);
    r
  }

  /** Texts occurring in the body occur in the body framed by a head and a
      tail. */
  lemma BodyLinesInTranscript(head: string, body: string, tail: string, lines: seq<string>)
    requires forall k :: 0 <= k < |lines| ==> Contains(body, lines[k])
    ensures forall k :: 0 <= k < |lines| ==> Contains(head + body + tail, lines[k])
  {
    forall k | 0 <= k < |lines| ensures Contains(head + body + tail, lines[k]) {
      ContainsExtended(body, lines[k], tail);
      ContainsExtended(body + tail, lines[k], head);
      assert head + (body + tail) == head + body + tail;
    }
  }

  /** One more turn adds exactly one line to the transcript body. */
  lemma TranscriptGrowsByOneLine(messages: seq<ChatMessage>, m: ChatMessage)
    requires messages != []
    ensures Join(TranscriptLines(messages + [m]), "\n") ==
            Join(TranscriptLines(messages), "\n") + "\n" + TranscriptLine(m)
  {
    assert TranscriptLines(messages + [m]) == TranscriptLines(messages) + [TranscriptLine(m)];
    JoinSnoc(TranscriptLines(messages), "\n", TranscriptLine(m));
  }

  /** How the Gemini request ended: thrown (network failure or a non-ok
      response), or answered with the text found at
      `candidates[0].content.parts[0].text`, if any. */
  datatype GeminiOutcome = RequestFailed | Answered(text: Option<string>)

  /** The reply text `callGemini` returns, or `None` when it throws. */
  function GeminiReply(outcome: GeminiOutcome): (r: Option<string>)
    ensures r.None? <==> outcome.RequestFailed?
    ensures r.Some? ==> r.value != ""
    ensures outcome.Answered? && outcome.text.Some? && outcome.text.value != "" ==> r == outcome.text
    ensures outcome.Answered? && (outcome.text.None? || outcome.text.value == "") ==> r == Some(NoResponse)
  {
    match outcome
    case RequestFailed => None
    case Answered(text) => Some(if text.Some? && text.value != "" then text.value else NoResponse)
  }

  /** The assistant reply `sendMessage` appends, or `None` when producing it
      throws: Gemini's answer when a key is set, the canned reply otherwise. */
  function ResolveReply(content: string, apiKey: string, gemini: GeminiOutcome, user: Option<User>,
                        complaints: seq<Complaint>, draw: Unit): (r: Option<string>)
    ensures apiKey == "" ==> r == Some(FallbackReply(content, user, complaints, draw))
    ensures apiKey != "" ==> r == GeminiReply(gemini)
  {
    if apiKey != "" then GeminiReply(gemini) else Some(FallbackReply(content, user, complaints, draw))
  }

  // ------------------------------------------------------- staff templates

  const NotFoundReply: string := "No complaint found with this ID."
  const LetterGreeting: string := "Dear customer,"
  const SummaryHeading: string := "Summary of complaint #"

  /** A text opening with something other than "N" is not the not-found
      reply. */
  lemma NotNotFound(r: string, prefix: string)
    requires prefix <= r && |prefix| > 0 && prefix[0] != 'N'
    ensures r != NotFoundReply
  {
    assert r[0] == prefix[0];
  }

  /** Three texts placed between fixed pieces all occur in the result, which
      opens with the first piece. */
  lemma PlacedTexts(g: string, a: string, x: string, b: string, y: string, c: string, z: string, d: string)
    ensures var r := g + a + x + b + y + c + z + d;
            g <= r && Contains(r, x) && Contains(r, y) && Contains(r, z)
  {
    ContainsEnd(g + a, x);
    ContainsExtended(g + a + x, x, b);
    ContainsEnd(g + a + x + b, y);
    ContainsExtended(g + a + x + b, x, y);
    ContainsExtended(g + a + x + b + y, x, c);
    ContainsExtended(g + a + x + b + y, y, c);
    ContainsEnd(g + a + x + b + y + c, z);
    ContainsExtended(g + a + x + b + y + c, x, z);
    ContainsExtended(g + a + x + b + y + c, y, z);
    ContainsExtended(g + a + x + b + y + c + z, x, d);
    ContainsExtended(g + a + x + b + y + c + z, y, d);
    ContainsExtended(g + a + x + b + y + c + z, z, d);
    var r := g + a + x + b + y + c + z + d;
    assert r[..|g|] == g;
  }

  const LetterThanks: string := "\n\nThank you for your complaint about "
  const LetterSorry: string := ". We're sorry to hear that you experienced an issue with "
  const LetterPriority: string := ".\n\nOur team is reviewing your case and will get back to you shortly. Your complaint has been assigned priority level "
  const LetterClosing: string := ".\n\nBest regards,\nCustomer Support Team"

  /** The letter around the three texts it quotes. */
  function Letter(category: string, title: string, priority: string): (r: string)
    ensures LetterGreeting <= r
    ensures Contains(r, category) && Contains(r, title) && Contains(r, "\"" + priority + "\"")
  {
    var quoted := "\"" + priority + "\"";
    PlacedTexts(LetterGreeting, LetterThanks, category, LetterSorry, title, LetterPriority, quoted, LetterClosing);
    LetterGreeting + LetterThanks + category + LetterSorry + title + LetterPriority + quoted + LetterClosing
  }

  /** The drafted customer reply for one record. */
  function ReplyLetter(c: Complaint): (r: string)
    ensures LetterGreeting <= r
  {
    Letter(ToLower(CategoryName(c.category)), ToLower(c.title), PriorityName(c.priority))
  }

  /** The drafted reply names the record's category and title in lower case
      and quotes its priority. */
  lemma ReplyLetterMentions(c: Complaint)
    ensures var r := ReplyLetter(c);
            Contains(r, ToLower(CategoryName(c.category))) && Contains(r, ToLower(c.title)) &&
            Contains(r, "\"" + PriorityName(c.priority) + "\"")
  {
  }

  /** `comments?.length || 0`. */
  function CommentCount(c: Complaint): (n: nat)
    ensures c.comments.Some? ==> n == |c.comments.value|
    ensures c.comments.None? ==> n == 0
  {
    if c.comments.Some? then |c.comments.value| else 0
  }

  /** The lines of the thread summary; `createdText` is the locale date
      string of the creation time. */
  function SummaryLines(c: Complaint, createdText: string): seq<string> {
    [SummaryHeading + c.id + ":",
     "- Category: " + CategoryName(c.category),
     "- Priority: " + PriorityName(c.priority),
     "- Status: " + StatusName(c.status),
     "- Created: " + createdText,
     "- Key issue: " + c.title,
     "- " + NatToString(CommentCount(c)) + " comments in thread"]
  }

  /** The seven summary lines joined: the first opens the text, the middle
      five occur in it, the last closes it. */
  lemma SummaryJoinFacts(lines: seq<string>, r: string)
    requires |lines| == 7 && r == Join(lines, "\n")
    ensures lines[0] <= r && |lines[6]| <= |r| && r[|r| - |lines[6]|..] == lines[6]
    ensures Contains(r, lines[1]) && Contains(r, lines[2]) && Contains(r, lines[3])
    ensures Contains(r, lines[4]) && Contains(r, lines[5])
  {
    JoinContainsEach(lines, "\n");
    JoinEnds(lines, "\n");
  }

  /** The thread summary: it opens with the complaint's id, has a line each
      for the category, priority, status, creation date and title, and ends
      with the number of comments in its thread. */
  function SummaryText(c: Complaint, createdText: string): (r: string)
    ensures SummaryHeading <= r && SummaryHeading + c.id + ":" <= r
    ensures Contains(r, "- Category: " + CategoryName(c.category))
    ensures Contains(r, "- Priority: " + PriorityName(c.priority))
    ensures Contains(r, "- Status: " + StatusName(c.status))
    ensures Contains(r, "- Created: " + createdText)
    ensures Contains(r, "- Key issue: " + c.title)
    ensures var tail := "- " + NatToString(CommentCount(c)) + " comments in thread";
            |tail| <= |r| && r[|r| - |tail|..] == tail
  {
    var lines := SummaryLines(c, createdText);
    var r := Join(lines, "\n");
    SummaryJoinFacts(lines, r);
    assert r[..|SummaryHeading|] == (SummaryHeading + c.id + ":")[..|SummaryHeading|];
    r
  }

  /** The text for the first record with the id, rendered by `render`, or
      the not-found reply exactly when there is none; `render` never
      produces the not-found reply itself. */
  function RenderFirst(complaints: seq<Complaint>, complaintId: string, render: Complaint -> string): (r: string)
    requires forall c :: render(c) != NotFoundReply
    ensures r == NotFoundReply <==> forall c :: c in complaints ==> c.id != complaintId
    ensures r != NotFoundReply ==>
      exists k :: && 0 <= k < |complaints| && complaints[k].id == complaintId
                  && (forall j :: 0 <= j < k ==> complaints[j].id != complaintId)
                  && r == render(complaints[k])
  {
    match GetComplaintById(complaints, complaintId)
    case None => NotFoundReply
    case Some(c) => render(c)
  }

  /** A drafted letter is not the not-found reply. */
  lemma LetterIsNotNotFound(c: Complaint)
    ensures ReplyLetter(c) != NotFoundReply
  {
    NotNotFound(ReplyLetter(c), LetterGreeting);
  }

  /** No drafted letter is the not-found reply. */
  lemma LettersAreNotNotFound()
    ensures forall c :: ReplyLetter(c) != NotFoundReply
  {
    forall c {
      LetterIsNotNotFound(c);
    }
  }

  /** `generateResponse`: the drafted reply for the first record with that
      id, or "No complaint found with this ID." exactly when there is none. */
  function DraftResponse(complaints: seq<Complaint>, complaintId: string): (r: string)
    ensures r == NotFoundReply <==> forall c :: c in complaints ==> c.id != complaintId
    ensures r != NotFoundReply ==>
      exists k :: && 0 <= k < |complaints| && complaints[k].id == complaintId
                  && (forall j :: 0 <= j < k ==> complaints[j].id != complaintId)
                  && r == ReplyLetter(complaints[k])
  {
    LettersAreNotNotFound();
    RenderFirst(complaints, complaintId, ReplyLetter)
  }

  /** No summary is the not-found reply. */
  lemma SummariesAreNotNotFound(formatDate: int -> string)
    ensures forall c: Complaint :: SummaryText(c, formatDate(c.createdAt)) != NotFoundReply
  {
    forall c: Complaint ensures SummaryText(c, formatDate(c.createdAt)) != NotFoundReply {
      NotNotFound(SummaryText(c, formatDate(c.createdAt)), SummaryHeading);
    }
  }

  /** `summarizeComplaint`: the summary of the first record with that id, or
      "No complaint found with this ID." exactly when there is none. */
  function SummarizeComplaint(complaints: seq<Complaint>, complaintId: string, formatDate: int -> string): (r: string)
    ensures r == NotFoundReply <==> forall c :: c in complaints ==> c.id != complaintId
    ensures r != NotFoundReply ==>
      exists k :: && 0 <= k < |complaints| && complaints[k].id == complaintId
                  && (forall j :: 0 <= j < k ==> complaints[j].id != complaintId)
                  && r == SummaryText(complaints[k], formatDate(complaints[k].createdAt))
  {
    SummariesAreNotNotFound(formatDate);
    RenderFirst(complaints, complaintId, (c: Complaint) => SummaryText(c, formatDate(c.createdAt)))
  }

  // -------------------------------------------------------- session values

  const SeedText: string := "I am an AI assistant that helps with customer complaints. How can I help you today?"
  const NewTitle: string := "New Conversation"

  function SeedMessage(messageId: string, now: int): (m: ChatMessage)
    ensures m.role == SystemTurn && m.content == SeedText
  {
    ChatMessage(messageId, SystemTurn, SeedText, now)
  }

  /** The session history opens with the system seed. */
  ghost predicate Seeded(s: ChatSession) {
    |s.messages| >= 1 && s.messages[0].role == SystemTurn
  }

  /** The session `createNewSession` builds: only the system seed, titled
      "New Conversation". */
  function NewSession(sessionId: string, messageId: string, now: int): (s: ChatSession)
    ensures s.id == sessionId && s.title == NewTitle && s.createdAt == now && s.updatedAt == now
    ensures |s.messages| == 1 && s.messages[0].role == SystemTurn && Seeded(s)
  {
    ChatSession(sessionId, [SeedMessage(messageId, now)], NewTitle, now, now)
  }

  /** The session `clearCurrentSession` builds: the history reset to a fresh
      system seed, id, title and creation time kept. */
  function ClearedSession(s: ChatSession, messageId: string, now: int): (c: ChatSession)
    ensures c.id == s.id && c.title == s.title && c.createdAt == s.createdAt && c.updatedAt == now
    ensures |c.messages| == 1 && c.messages[0].role == SystemTurn && Seeded(c)
  {
    s.(messages := [SeedMessage(messageId, now)], updatedAt := now)
  }

  /** A session with one more message at the end of its history. */
  function WithMessage(s: ChatSession, m: ChatMessage, now: int): (t: ChatSession)
    ensures t.id == s.id && t.title == s.title && t.createdAt == s.createdAt && t.updatedAt == now
    ensures t.messages == s.messages + [m]
    ensures Seeded(s) ==> Seeded(t)
  {
    s.(messages := s.messages + [m], updatedAt := now)
  }

  /** `sessions.map(x => x.id === id ? s : x)`: every session with that id
      replaced by `s`, every other kept in place. */
  function ReplaceById(sessions: seq<ChatSession>, id: string, s: ChatSession): (r: seq<ChatSession>)
    ensures |r| == |sessions|
    ensures forall k :: 0 <= k < |r| && sessions[k].id != id ==> r[k] == sessions[k]
    ensures forall k :: 0 <= k < |r| && sessions[k].id == id ==> r[k] == s
  {
    seq(|sessions|, k requires 0 <= k < |sessions| => if sessions[k].id == id then s else sessions[k])
  }

  /** Replacing twice under the id the first replacement carries is
      replacing once with the second value. */
  lemma ReplaceByIdTwice(sessions: seq<ChatSession>, id: string, a: ChatSession, b: ChatSession)
    requires a.id == id
    ensures ReplaceById(ReplaceById(sessions, id, a), id, b) == ReplaceById(sessions, id, b)
  {
  }

  /** Replacing the session that holds `id` keeps the history of every
      session seeded and makes the replacement one of the sessions. */
  lemma ReplaceByIdKeepsSeeded(sessions: seq<ChatSession>, cur: ChatSession, s: ChatSession)
    requires forall x :: x in sessions ==> Seeded(x)
    requires cur in sessions && Seeded(s)
    ensures var r := ReplaceById(sessions, cur.id, s);
            (forall x :: x in r ==> Seeded(x)) && s in r
  {
    var r := ReplaceById(sessions, cur.id, s);
    var k :| 0 <= k < |sessions| && sessions[k] == cur;
    assert r[k] == s;
    forall x | x in r ensures Seeded(x) {
      var j :| 0 <= j < |r| && r[j] == x;
      assert sessions[j] in sessions;
    }
  }

  // -------------------------------------------------------- the session store

  class ChatProvider {
    var sessions: seq<ChatSession>
    var currentSession: Option<ChatSession>
    var isLoading: bool

    /** Every stored session opens with its system seed, and the current
        session is one of the stored sessions. */
    ghost predicate Valid()
      reads this
    {
      && (forall s :: s in sessions ==> Seeded(s))
      && (currentSession.Some? ==> currentSession.value in sessions)
    }

    /** The provider as first rendered. */
    constructor ()
      ensures Valid() && sessions == [] && currentSession == None && !isLoading
    {
      sessions := [];
      currentSession := None;
      isLoading := false;
    }

    /** The mount effect: open a default session when there is none. */
    method InitializeDefaultSession(sessionId: string, messageId: string, now: int)
      requires Valid()
      modifies this
      ensures Valid() && isLoading == old(isLoading)
      ensures old(sessions) == [] ==>
        sessions == [NewSession(sessionId, messageId, now)] && currentSession == Some(NewSession(sessionId, messageId, now))
      ensures old(sessions) != [] ==> sessions == old(sessions) && currentSession == old(currentSession)
    {
      if |sessions| == 0 {
        CreateNewSession(sessionId, messageId, now);
      }
    }

    /** `createNewSession`: one new seeded session at the end, and it
        becomes current. */
    method CreateNewSession(sessionId: string, messageId: string, now: int)
      requires Valid()
      modifies this
      ensures Valid() && isLoading == old(isLoading)
      ensures sessions == old(sessions) + [NewSession(sessionId, messageId, now)]
      ensures currentSession == Some(NewSession(sessionId, messageId, now))
    {
      var newSession := NewSession(sessionId, messageId, now);
      sessions := sessions + [newSession];
      currentSession := Some(newSession);
    }

    /** `switchSession`: the first stored session with that id becomes
        current; an unknown id changes nothing. */
    method SwitchSession(sessionId: string)
      requires Valid()
      modifies this
      ensures Valid() && sessions == old(sessions) && isLoading == old(isLoading)
      ensures (forall s :: s in sessions ==> s.id != sessionId) ==> currentSession == old(currentSession)
      ensures currentSession == old(currentSession) ||
              currentSession == Find(sessions, (s: ChatSession) => s.id == sessionId)
      ensures (exists s :: s in sessions && s.id == sessionId) ==>
              currentSession.Some? && currentSession.value.id == sessionId &&
              currentSession == Find(sessions, (s: ChatSession) => s.id == sessionId)
    {
      var found := Find(sessions, (s: ChatSession) => s.id == sessionId);
      if found.Some? {
        currentSession := found;
      }
    }

    /** `clearCurrentSession`: nothing without a current session; otherwise
        its history is reset to a fresh system seed (id, title and creation
        time kept) in the current session and in every stored session with
        its id, and no other stored session changes. */
    method ClearCurrentSession(messageId: string, now: int)
      requires Valid()
      modifies this
      ensures Valid() && isLoading == old(isLoading)
      ensures old(currentSession).None? ==> sessions == old(sessions) && currentSession == None
      ensures old(currentSession).Some? ==>
        var cleared := ClearedSession(old(currentSession).value, messageId, now);
        currentSession == Some(cleared) &&
        sessions == ReplaceById(old(sessions), cleared.id, cleared)
    {
      if currentSession.Some? {
        var cur := currentSession.value;
        var cleared := ClearedSession(cur, messageId, now);
        ReplaceByIdKeepsSeeded(sessions, cur, cleared);
        sessions := ReplaceById(sessions, cur.id, cleared);
        currentSession := Some(cleared);
      }
    }

    /** `sendMessage`. Without a current session nothing happens. Otherwise
        the user's turn (content as typed) is appended; when the reply is
        produced, the assistant's turn follows it, and when producing it
        throws only the user's turn stays. Sessions with other ids are left
        alone and loading ends false. `prompt` is the transcript posted to
        Gemini, when a key is set. */
    method SendMessage(content: string, userMessageId: string, assistantMessageId: string,
                       sentAt: int, repliedAt: int, apiKey: string, gemini: GeminiOutcome,
                       user: Option<User>, complaints: seq<Complaint>, draw: Unit)
      returns (prompt: Option<string>)
      requires Valid()
      modifies this
      ensures Valid()
      ensures old(currentSession).None? ==>
        sessions == old(sessions) && currentSession == None && isLoading == old(isLoading) && prompt == None
      ensures old(currentSession).Some? ==>
        var cur := old(currentSession).value;
        var userTurn := ChatMessage(userMessageId, UserTurn, content, sentAt);
        var withUser := WithMessage(cur, userTurn, sentAt);
        var reply := ResolveReply(content, apiKey, gemini, user, complaints, draw);
        var final := if reply.Some? then WithMessage(withUser, ChatMessage(assistantMessageId, AssistantTurn, reply.value, repliedAt), repliedAt)
                     else withUser;
        && !isLoading
        && currentSession == Some(final)
        && sessions == ReplaceById(old(sessions), cur.id, final)
        && prompt == (if apiKey != "" then Some(Transcript(withUser.messages)) else None)
    {
      if currentSession.None? {
        return None;
      }
      isLoading := true;
      var cur := currentSession.value;
      var userTurn := ChatMessage(userMessageId, UserTurn, content, sentAt);
      var withUser := WithMessage(cur, userTurn, sentAt);
      ReplaceByIdKeepsSeeded(sessions, cur, withUser);
      currentSession := Some(withUser);
      ghost var before := sessions;
      sessions := ReplaceById(sessions, cur.id, withUser);
      prompt := if apiKey != "" then Some(Transcript(withUser.messages)) else None;
      var reply := ResolveReply(content, apiKey, gemini, user, complaints, draw);
      if reply.Some? {
        var assistantTurn := ChatMessage(assistantMessageId, AssistantTurn, reply.value, repliedAt);
        var final := WithMessage(withUser, assistantTurn, repliedAt);
        ReplaceByIdKeepsSeeded(sessions, withUser, final);
        ReplaceByIdTwice(before, cur.id, withUser, final);
        sessions := ReplaceById(sessions, cur.id, final);
        currentSession := Some(final);
      }
      isLoading := false;
    }
  }

  /** A successful send grows the current history by exactly the user's
      turn followed by the assistant's. */
  lemma SendAppendsTwoTurns(cur: ChatSession, content: string, userMessageId: string, assistantMessageId: string,
                            sentAt: int, repliedAt: int, reply: string)
    ensures var withUser := WithMessage(cur, ChatMessage(userMessageId, UserTurn, content, sentAt), sentAt);
            var final := WithMessage(withUser, ChatMessage(assistantMessageId, AssistantTurn, reply, repliedAt), repliedAt);
            && |final.messages| == |cur.messages| + 2
            && final.messages[..|cur.messages|] == cur.messages
            && final.messages[|cur.messages|].role == UserTurn
            && final.messages[|cur.messages|].content == content
            && final.messages[|cur.messages| + 1].role == AssistantTurn
            && final.messages[|cur.messages| + 1].content == reply
  {
  }
}
