/**
 * The chat endpoint `POST /api/chat`: it validates the request, builds the message
 * list for one chat-completion call, and turns the remote answer (or its failure)
 * into the JSON reply. The remote call itself is an input: its status and body.
 */
module ChatRoute {
  import opened Wrappers
  import opened Strings
  import opened Seqs

  datatype Role = System | User | Assistant

  /** One entry of the `messages` array sent to the completion endpoint. */
  datatype OutgoingMessage = OutgoingMessage(role: Role, content: string)

  /** A prior chat message as the page sends it: its `type` tag and its text. */
  datatype HistoryItem =
    | HistoryItem(kind: string, content: string)
    | NullItem         // `null` or `undefined`: reading `msg.type` throws a TypeError

  /** None of the last three history items, the ones `map` re-tags, is `null`. */
  predicate RecentAreObjects(history: seq<HistoryItem>) {
    forall i :: |history| - 3 <= i < |history| && 0 <= i ==> history[i].HistoryItem?
  }

  /** The `message` field of the JSON body. */
  datatype MessageField =
    | Missing          // absent, `undefined` or `null`
    | Text(value: string)
    | NotText          // a value without `trim`: calling it throws a TypeError

  /** The `messages` field of the JSON body. */
  datatype HistoryField =
    | Absent           // not an array: `messages.slice` throws a TypeError
    | Items(items: seq<HistoryItem>)

  datatype ChatRequest =
    | MalformedJson(reason: string)
      // `request.json()` threw with this message, or the body is the literal `null`
      // and destructuring it threw
    | Json(message: MessageField, messages: HistoryField)

  /** What `JSON.parse` makes of a non-blank success body. */
  datatype Completion =
    | NotJson                               // `JSON.parse` throws
    | Null                                  // the literal `null`: reading `.choices` throws
    | Parsed(firstContent: Option<string>)
      // any other value: `choices?.[0]?.message?.content` when that is a string, else None;
      // a number, string or boolean body has no `choices` and so is `Parsed(None)`

  /** The outcome of the remote call. */
  datatype Upstream =
    | Unreachable(reason: string)   // `fetch` rejected (network or DNS failure) with this message
    | Answered(status: int, body: Option<string>, parsed: Completion)
      // its status, its body text (None when reading it fails), the parse of that text

  datatype ChatResponse =
    | Replied(response: string)           // 200, `success: true`
    | Failed(status: nat, error: string)  // `success: false`

  /** The route's answer together with the message list sent upstream, if a call was made. */
  datatype Exchange = Exchange(sent: Option<seq<OutgoingMessage>>, response: ChatResponse)

  const MessageRequired := "Message is required"
  const KeyNotConfigured := "OpenAI API Key არ არის კონფიგურირებული"
  const InvalidKey := "OpenAI API Key არასწორია"
  const RateLimited := "OpenAI API Rate Limit გადაჭარბებულია"
  const ServerError := "OpenAI სერვერის შეცდომა"
  const GenericApiError := "OpenAI API Error"
  const InvalidResponse := "OpenAI API-დან არასწორი პასუხი მოვიდა"
  const NoReply := "ვერ მივიღე პასუხი OpenAI-დან"
  const DefaultChatError := "ჩათის შეცდომა. სცადე ხელახლა."
  /** The message of a TypeError raised by the runtime; its exact wording is the engine's. */
  const TypeErrorText := "TypeError"

  const SystemPrompt := "შენ ხარ მეგობრული AI ასისტენტი. პასუხები იყოს:\n- მოკლე და ზუსტი (მაქსიმუმ 2-3 წინადადება)\n- ქართულ ენაზე\n- მეგობრული ტონით\n- პრაქტიკული და სასარგებლო\n\nთუ კითხვა კოდის შესახებ არ არის, მიეცი მოკლე, ინფორმაციული პასუხი."

  /** `!process.env.OPENAI_API_KEY` is false: the key is set and not empty. */
  predicate Configured(apiKey: Option<string>) {
    apiKey.Some? && apiKey.value != ""
  }

  /** A history item re-tagged for the remote API. */
  function Retag(item: HistoryItem): (m: OutgoingMessage)
    requires item.HistoryItem?
    ensures m.content == item.content
    ensures m.role == User <==> item.kind == "user"
    ensures m.role != System
  {
    OutgoingMessage(if item.kind == "user" then User else Assistant, item.content)
  }

  /**
   * The `messages` array of the completion request: the system prompt, the last
   * three history items re-tagged by their type, then the new message as `user`.
   */
  function OutgoingMessages(history: seq<HistoryItem>, message: string): (out: seq<OutgoingMessage>)
    requires RecentAreObjects(history)
    ensures |out| == Min(3, |history|) + 2 && |out| <= 5
    ensures out[0] == OutgoingMessage(System, SystemPrompt)
    ensures out[|out| - 1] == OutgoingMessage(User, message)
    ensures forall k :: 1 <= k < |out| - 1 ==>
              var item := history[|history| - |out| + 1 + k];
              && out[k].content == item.content
              && (out[k].role == User <==> item.kind == "user")
              && out[k].role != System
  {
    var recent := LastN(history, 3);
    var retagged := seq(|recent|, i requires 0 <= i < |recent| => Retag(recent[i]));
    [OutgoingMessage(System, SystemPrompt)] + retagged + [OutgoingMessage(User, message)]
  }

  /** The error text chosen for a non-OK status. */
  function StatusError(status: int): (text: string)
    ensures text in {InvalidKey, RateLimited, ServerError, GenericApiError}
    ensures text == InvalidKey <==> status == 401
    ensures text == RateLimited <==> status == 429
    ensures text == ServerError <==> status == 500
  {
    if status == 401 then InvalidKey
    else if status == 429 then RateLimited
    else if status == 500 then ServerError
    else GenericApiError
  }

  /** The three recognised statuses get three different texts; every other status the generic one. */
  lemma StatusErrorDistinct(status: int)
    ensures StatusError(401) != StatusError(429) && StatusError(429) != StatusError(500) && StatusError(500) != StatusError(401)
    ensures status !in {401, 429, 500} <==> StatusError(status) == GenericApiError
  {
  }

  /** `error.message || "…"`: an exception with an empty message gets the default text. */
  function ErrorText(message: string): (text: string)
    ensures text != ""
    ensures message != "" ==> text == message
  {
    if message == "" then DefaultChatError else message
  }

  predicate IsOk(status: int) {
    200 <= status <= 299
  }

  /**
   * The reply made of the remote answer. A rejected fetch becomes a 500 with its
   * message. A non-OK status becomes a 500 whose text depends on the status,
   * unless reading the error body failed first. An OK answer whose body is blank,
   * unreadable or not JSON becomes the one "invalid response" text; a `null` body
   * fails on reading `.choices`. Otherwise the reply is the first choice's
   * content, or the placeholder when it is missing or empty.
   */
  function Interpret(u: Upstream): (resp: ChatResponse)
    ensures resp.Failed? ==> resp.status == 500 && resp.error != ""
    ensures u.Unreachable? ==> resp == Failed(500, ErrorText(u.reason))
    ensures u.Answered? && !IsOk(u.status) ==>
              resp == Failed(500, if u.body.Some? then StatusError(u.status) else GenericApiError)
    ensures u.Answered? && IsOk(u.status) && (u.body.None? || IsBlank(u.body.value) || u.parsed.NotJson?) ==>
              resp == Failed(500, InvalidResponse)
    ensures u.Answered? && IsOk(u.status) && u.body.Some? && !IsBlank(u.body.value) && u.parsed.Null? ==>
              resp == Failed(500, TypeErrorText)
    ensures resp.Replied? <==>
              u.Answered? && IsOk(u.status) && u.body.Some? && !IsBlank(u.body.value) && u.parsed.Parsed?
    ensures resp.Replied? && u.parsed.firstContent.Some? && u.parsed.firstContent.value != "" ==>
              resp.response == u.parsed.firstContent.value
    ensures resp.Replied? ==> resp.response != ""
    ensures resp.Replied? ==> (resp.response == NoReply <==>
              u.parsed.firstContent in {None, Some(""), Some(NoReply)})
  {
    match u
    case Unreachable(reason) => Failed(500, ErrorText(reason))
    case Answered(status, body, parsed) =>
      if !IsOk(status) then
        Failed(500, ErrorText(if body.Some? then StatusError(status) else GenericApiError))
      else if body.None? || Trim(body.value) == [] then
        Failed(500, ErrorText(InvalidResponse))
      else match parsed
        case NotJson => Failed(500, ErrorText(InvalidResponse))
        case Null => Failed(500, ErrorText(TypeErrorText))
        case Parsed(content) =>
          Replied(if content.Some? && content.value != "" then content.value else NoReply)
  }

  /**
   * `POST /api/chat`. The message is checked before the key; no remote call is
   * made unless both pass. Every exception ends as a 500 with its message.
   */
  function Post(req: ChatRequest, apiKey: Option<string>, upstream: Upstream): (ex: Exchange)
    ensures req.Json? && (req.message.Missing? || (req.message.Text? && IsBlank(req.message.value))) ==>
              ex == Exchange(None, Failed(400, MessageRequired))
    ensures req.Json? && req.message.Text? && !IsBlank(req.message.value) && !Configured(apiKey) ==>
              ex == Exchange(None, Failed(500, KeyNotConfigured))
    ensures ex.sent.Some? <==>
              && req.Json? && req.message.Text? && !IsBlank(req.message.value) && Configured(apiKey)
              && req.messages.Items? && RecentAreObjects(req.messages.items)
    ensures ex.sent.Some? ==>
              ex.sent.value == OutgoingMessages(req.messages.items, req.message.value) && ex.response == Interpret(upstream)
    ensures req.MalformedJson? ==> ex == Exchange(None, Failed(500, ErrorText(req.reason)))
    ensures req.Json? && req.message.NotText? ==> ex == Exchange(None, Failed(500, ErrorText(TypeErrorText)))
    ensures req.Json? && req.message.Text? && !IsBlank(req.message.value) && Configured(apiKey) && req.messages.Absent? ==>
              ex == Exchange(None, Failed(500, ErrorText(TypeErrorText)))
    ensures req.Json? && req.message.Text? && !IsBlank(req.message.value) && Configured(apiKey) &&
            req.messages.Items? && !RecentAreObjects(req.messages.items) ==>
              ex == Exchange(None, Failed(500, ErrorText(TypeErrorText)))
    ensures ex.sent.None? ==> ex.response.Failed?
    ensures ex.response.Failed? ==> ex.response.error != "" && ex.response.status in {400, 500}
  {
    match req
    case MalformedJson(reason) => Exchange(None, Failed(500, ErrorText(reason)))
    case Json(message, messages) =>
      match message
      case Missing => Exchange(None, Failed(400, MessageRequired))
      case NotText => Exchange(None, Failed(500, ErrorText(TypeErrorText)))
      case Text(m) =>
        if Trim(m) == [] then Exchange(None, Failed(400, MessageRequired))
        else if !Configured(apiKey) then Exchange(None, Failed(500, KeyNotConfigured))
        else match messages
          case Absent => Exchange(None, Failed(500, ErrorText(TypeErrorText)))
          case Items(history) =>
            if !RecentAreObjects(history) then Exchange(None, Failed(500, ErrorText(TypeErrorText)))
            else Exchange(Some(OutgoingMessages(history, m)), Interpret(upstream))
  }

  /** Every request that reaches the remote API carries at most five messages. */
  lemma SentListBounded(req: ChatRequest, apiKey: Option<string>, upstream: Upstream)
    ensures Post(req, apiKey, upstream).sent.Some? ==> 2 <= |Post(req, apiKey, upstream).sent.value| <= 5
  {
  }
}
