/**
 * The chat page: the message list, the input box, the loading flag and the
 * project shown beside the chat. Sending routes the input either to code
 * generation or to chat by keyword, and always answers with one assistant message.
 * Each fetch is an input of the step that makes it.
 */
module ChatPage {
  import opened Wrappers
  import opened Strings
  import opened Seqs

  datatype Author = User | Assistant

  /** A chat bubble; the timestamp is not modelled, the id comes from the clock. */
  datatype Message = Message(id: string, author: Author, content: string)

  /** The generation result the page keeps: `data` of a successful `/api/generate` call. */
  datatype PageProject = PageProject(code: string, preview: string, success: bool)

  const Greeting := "გამარჯობა! 👋 მე ვარ AI ასისტენტი. შემიძლია:\n\n🔹 კოდის შექმნა (მაგ: 'შექმენი todo აპი')\n🔹 კითხვებზე პასუხგაცემა\n🔹 ტექნიკური დახმარება\n\nრით შემიძლია დაგეხმარო?"
  const ClearedGreeting := "ჩათი გასუფთავდა! რით შემიძლია დაგეხმარო?"
  const SuccessMark := "✅"
  const ErrorMark := "❌"
  const GenerationSucceeded := SuccessMark + " კოდი წარმატებით შეიქმნა! ახლა შეგიძლია ნახო მარჯვენა მხარეს პრივიუში."
  const GenerationErrorPrefix := ErrorMark + " კოდის გენერაციის შეცდომა: "
  const ChatErrorPrefix := ErrorMark + " შეცდომა: "
  const DefaultSendError := "რაღაც არასწორად მოხდა. სცადე ხელახლა."

  /** The words that make an input a code-generation request. */
  const CodeKeywords: seq<string> := [
    "შექმენი", "გააკეთე", "დაწერე", "create", "make", "build", "generate",
    "app", "აპი", "აპლიკაცია", "საიტი", "page", "გვერდი"]

  const QuickPrompts: seq<string> := [
    "შექმენი landing page", "გააკეთე todo აპი", "დაწერე calculator",
    "შექმენი weather app", "რა არის React?", "როგორ ვისწავლო JavaScript?"]

  /** How many earlier messages go to the chat endpoint as context. */
  const ContextSize: nat := 5

  /** Some word of `words` occurs in `s`. */
  function ContainsAny(s: string, words: seq<string>): (b: bool)
    ensures b <==> exists i :: 0 <= i < |words| && Occurs(s, words[i])
  {
    if words == [] then false
    else if Contains(s, words[0]) then true
    else
      var b := ContainsAny(s, words[1..]);
      assert forall i :: 1 <= i < |words| ==> words[i] == words[1..][i - 1];
      b
  }

  /** `isCodeRequest`: the lower-cased input contains one of the thirteen keywords. */
  function IsCodeRequest(input: string): (b: bool)
    ensures b <==> exists i :: 0 <= i < |CodeKeywords| && Occurs(ToLower(input), CodeKeywords[i])
  {
    ContainsAny(ToLower(input), CodeKeywords)
  }

  /** An input that starts with keyword `k`, in any letter case, is a code request. */
  lemma {:induction false} LeadingKeywordIsCodeRequest(input: string, k: nat)
    requires k < |CodeKeywords| && StartsWith(ToLower(input), CodeKeywords[k])
    ensures IsCodeRequest(input)
  {
    assert OccursAt(ToLower(input), CodeKeywords[k], 0);
  }

  /** A request written in Georgian capitals (Mtavruli) is lower-cased to its keyword first. */
  lemma CapitalGeorgianIsCodeRequest()
    ensures IsCodeRequest("\U{1CA8}\U{1C94}\U{1CA5}\U{1C9B}\U{1C94}\U{1C9C}\U{1C98}")
  {
    var p := "\U{1CA8}\U{1C94}\U{1CA5}\U{1C9B}\U{1C94}\U{1C9C}\U{1C98}";
    assert ToLower(p) == CodeKeywords[0] by {
      forall j | 0 <= j < |p| ensures ToLower(p)[j] == CodeKeywords[0][j] {
        assert ToLower(p)[j] == LowerChar(p[j]);
      }
    }
    LeadingKeywordIsCodeRequest(p, 0);
  }

  /** The first four quick prompts ask for code and so go to generation. */
  lemma QuickPromptsGenerate(i: nat)
    requires i < 4
    ensures IsCodeRequest(QuickPrompts[i])
  {
    var p := QuickPrompts[i];
    var k := if i == 1 then 1 else if i == 2 then 2 else 0;
    var w := CodeKeywords[k];
    assert p[..|w|] == w;
    assert ToLower(p)[..|w|] == w by {
      forall j | 0 <= j < |w| ensures ToLower(p)[j] == w[j] {
        assert ToLower(p)[j] == LowerChar(p[j]);
      }
    }
    LeadingKeywordIsCodeRequest(p, k);
  }

  /** The guard of `sendMessage`: nothing to send, or a send still running. */
  predicate SendBlocked(input: string, loading: bool) {
    Trim(input) == [] || loading
  }

  /** The send button's `disabled` attribute. */
  predicate SendDisabled(loading: bool, input: string) {
    loading || IsBlank(input)
  }

  /** The button is disabled exactly when a click would be ignored. */
  lemma SendDisabledIffBlocked(input: string, loading: bool)
    ensures SendDisabled(loading, input) <==> SendBlocked(input, loading)
  {
  }

  /** The quick prompts show while the chat holds at most one message. */
  predicate ShowQuickPrompts(messages: seq<Message>) {
    |messages| <= 1
  }

  /** What `/api/generate` gave back, or the exception its fetch or JSON parse raised. */
  datatype GenerateReply =
    | GenerateReply(ok: bool, data: PageProject, error: string)
    | GenerateThrew(message: string)

  /** `response.ok && data.success`. */
  predicate Accepted(r: GenerateReply) {
    r.GenerateReply? && r.ok && r.data.success
  }

  /** The text `generateCode` returns; it never throws. */
  function GenerateText(r: GenerateReply): string {
    if Accepted(r) then GenerationSucceeded
    else if r.GenerateReply? then GenerationErrorPrefix + (if r.error == "" then "Generation failed" else r.error)
    else GenerationErrorPrefix + r.message
  }

  /** A generation answer starts with the error mark exactly when the generation was not accepted. */
  lemma GenerateTextMarksFailure(r: GenerateReply)
    ensures StartsWith(GenerateText(r), ErrorMark) <==> !Accepted(r)
  {
  }

  /** What `/api/chat` gave back, or the exception its fetch or JSON parse raised. */
  datatype ChatReply =
    | ChatReply(ok: bool, success: bool, response: string, error: string)
    | ChatThrew(message: string)

  predicate ChatAnswered(r: ChatReply) {
    r.ChatReply? && r.ok && r.success
  }

  /** The assistant text for a chat answer: the reply, or the marked error of the catch block. */
  function ChatText(r: ChatReply): string {
    if ChatAnswered(r) then r.response
    else
      var message := if r.ChatReply? then (if r.error == "" then "Chat failed" else r.error) else r.message;
      ChatErrorPrefix + (if message == "" then DefaultSendError else message)
  }

  /** A failed chat always shows a marked, non-empty reason. */
  lemma ChatTextMarksFailure(r: ChatReply)
    ensures !ChatAnswered(r) ==> StartsWith(ChatText(r), ErrorMark) && |ChatText(r)| > |ChatErrorPrefix|
    ensures ChatAnswered(r) ==> ChatText(r) == r.response
  {
  }

  /** The request a send makes. */
  datatype Outgoing =
    | ToGenerate(prompt: string)
    | ToChat(message: string, context: seq<Message>)

  /** Where a (trimmed) input goes, given the messages shown before it was sent. */
  function RequestFor(input: string, shown: seq<Message>): (out: Outgoing)
    ensures out.ToGenerate? <==> IsCodeRequest(input)
    ensures out.ToGenerate? ==> out.prompt == input
    ensures out.ToChat? ==> out.message == input && |out.context| == Min(ContextSize, |shown|)
                            && out.context == shown[|shown| - |out.context|..]
  {
    if IsCodeRequest(input) then ToGenerate(input) else ToChat(input, LastN(shown, ContextSize))
  }

  /** The assistant text a send ends with. */
  function ReplyFor(input: string, gen: GenerateReply, chat: ChatReply): string {
    if IsCodeRequest(input) then GenerateText(gen) else ChatText(chat)
  }

  /** Every send that fails shows the error mark. */
  lemma FailedSendIsMarked(input: string, gen: GenerateReply, chat: ChatReply)
    ensures IsCodeRequest(input) && !Accepted(gen) ==> StartsWith(ReplyFor(input, gen, chat), ErrorMark)
    ensures !IsCodeRequest(input) && !ChatAnswered(chat) ==> StartsWith(ReplyFor(input, gen, chat), ErrorMark)
  {
  }

  /**
   * An assistant message first and then user/assistant pairs: assistant
   * messages at even positions, non-blank user messages at odd ones.
   */
  ghost predicate Alternating(ms: seq<Message>) {
    && |ms| % 2 == 1
    && (forall i :: 0 <= i < |ms| ==> (ms[i].author == User <==> i % 2 == 1))
    && (forall i :: 0 <= i < |ms| && ms[i].author == User ==> !IsBlank(ms[i].content))
  }

  /** Appending one exchange keeps the conversation alternating and adds one pair. */
  lemma AppendExchange(ms: seq<Message>, u: Message, a: Message)
    requires Alternating(ms)
    requires u.author == User && !IsBlank(u.content) && a.author == Assistant
    ensures Alternating(ms + [u, a])
    ensures |ms + [u, a]| == |ms| + 2
  {
  }

  class ChatSession {
    var messages: seq<Message>
    var inputMessage: string
    var loading: bool
    var currentProject: Option<PageProject>

    /**
     * The greeting and then user/assistant pairs: assistant messages at even
     * positions, non-blank user messages at odd ones; a shown project was a success.
     */
    ghost predicate Valid()
      reads this
    {
      && Alternating(messages)
      && ShownProjectSucceeded()
    }

    /** The project on screen, if any, is one whose generation reported success. */
    ghost predicate ShownProjectSucceeded()
      reads this
    {
      currentProject.Some? ==> currentProject.value.success
    }

    constructor ()
      ensures Valid()
      ensures messages == [Message("1", Assistant, Greeting)]
      ensures inputMessage == "" && !loading && currentProject == None
    {
      messages := [Message("1", Assistant, Greeting)];
      inputMessage := "";
      loading := false;
      currentProject := None;
    }

    /** Typing in the input box. */
    method SetInputMessage(text: string)
      requires Valid()
      modifies this
      ensures Valid() && inputMessage == text
      ensures messages == old(messages) && loading == old(loading) && currentProject == old(currentProject)
    {
      inputMessage := text;
    }

    /** Clicking quick prompt `i` fills the input with it. */
    method PickQuickPrompt(i: nat)
      requires Valid() && i < |QuickPrompts|
      modifies this
      ensures Valid() && inputMessage == QuickPrompts[i]
      ensures messages == old(messages) && loading == old(loading) && currentProject == old(currentProject)
    {
      inputMessage := QuickPrompts[i];
    }

    /** `clearChat`: one fresh greeting with id "1", and no project; input and loading stay. */
    method ClearChat()
      requires Valid()
      modifies this
      ensures Valid()
      ensures messages == [Message("1", Assistant, ClearedGreeting)] && currentProject == None
      ensures inputMessage == old(inputMessage) && loading == old(loading)
      ensures ShowQuickPrompts(messages)
    {
      messages := [Message("1", Assistant, ClearedGreeting)];
      currentProject := None;
    }

    /** `generateCode`: shows the project only when the call succeeded; failures become text. */
    method GenerateCode(reply: GenerateReply) returns (text: string)
      requires ShownProjectSucceeded()
      modifies this
      ensures ShownProjectSucceeded()
      ensures text == GenerateText(reply)
      ensures currentProject == if Accepted(reply) then Some(reply.data) else old(currentProject)
      ensures messages == old(messages) && inputMessage == old(inputMessage) && loading == old(loading)
    {
      if reply.GenerateReply? && reply.ok && reply.data.success {
        currentProject := Some(reply.data);
        text := GenerationSucceeded;
      } else if reply.GenerateReply? {
        text := GenerationErrorPrefix + (if reply.error == "" then "Generation failed" else reply.error);
      } else {
        text := GenerationErrorPrefix + reply.message;
      }
    }

    /**
     * `sendMessage` as one step. `gen` and `chat` are what the generation and the
     * chat endpoint would answer; only the one the input is routed to is used.
     * Blocked: nothing changes. Otherwise exactly one user message (the trimmed
     * input) and one assistant message are appended, the input is cleared and
     * loading is off again; the chat context is the last five messages shown
     * before the send.
     */
    method SendMessage(userId: string, replyId: string, gen: GenerateReply, chat: ChatReply)
      returns (sent: Option<Outgoing>)
      requires Valid()
      modifies this
      ensures Valid()
      ensures SendBlocked(old(inputMessage), old(loading)) ==>
                sent == None && messages == old(messages) && inputMessage == old(inputMessage)
                && loading == old(loading) && currentProject == old(currentProject)
      ensures !SendBlocked(old(inputMessage), old(loading)) ==>
                var input := Trim(old(inputMessage));
                && sent == Some(RequestFor(input, old(messages)))
                && messages == old(messages) + [Message(userId, User, input),
                                                Message(replyId, Assistant, ReplyFor(input, gen, chat))]
                && inputMessage == "" && !loading
                && currentProject == (if IsCodeRequest(input) && Accepted(gen) then Some(gen.data) else old(currentProject))
    {
      if Trim(inputMessage) == [] || loading {
        return None;
      }
      var shown := messages;
      var currentInput := Trim(inputMessage);
      var userMessage := Message(userId, User, currentInput);
      messages := messages + [userMessage];
      inputMessage := "";
      loading := true;
      var reply: string;
      if IsCodeRequest(currentInput) {
        sent := Some(ToGenerate(currentInput));
        reply := GenerateCode(gen);
      } else {
        sent := Some(ToChat(currentInput, LastN(shown, ContextSize)));
        reply := ChatText(chat);
      }
      var replyMessage := Message(replyId, Assistant, reply);
      AppendExchange(shown, userMessage, replyMessage);
      messages := messages + [replyMessage];
      assert messages == shown + [userMessage, replyMessage];
      loading := false;
    }
  }
}
