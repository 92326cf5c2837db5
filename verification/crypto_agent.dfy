/** The conversation agent of `src/agent.py`: it detects the user's language,
    appends the user turn to the history, asks the chat model with a system
    prompt and the last five turns, adds a live Bitcoin price line when the
    message asks about prices, and records the reply. Every failure becomes a
    returned string.

    The two chat-model calls and the price endpoint are inputs (`Oracle`): the
    reply each would give. The price is formatted by an opaque `format`
    function standing for `f"{price:,.2f}"`. */
module CryptoAgent {
  import opened Wrappers
  import opened Text
  import CryptoApi

  datatype Role = User | Assistant | System

  /** A history entry; only user turns carry the detected language. */
  datatype Turn = Turn(role: Role, content: string, detectedLanguage: Option<string>)

  /** A chat-model request message: a turn reduced to role and content. */
  datatype Message = Message(role: Role, content: string)

  /** Cache lifetime and minimum spacing of upstream price calls, in seconds. */
  datatype Config = Config(cacheDuration: real, rateLimitDelay: real)

  /** The agent's state: its configuration, the conversation so far and its price client. */
  datatype Agent = Agent(config: Config, history: seq<Turn>, api: CryptoApi.Api)

  /** The replies of the outside world for one message: the language-detection
      call, the chat call, and the price endpoint (consulted only when needed). */
  datatype Oracle = Oracle(language: Result<string, string>, chat: Result<string, string>,
                           price: CryptoApi.FetchReply)

  /** The outcome of one `process_message`: the returned text, the new state, the
      language-detection request, the chat request and the price lookup made, if any. */
  datatype Outcome = Outcome(response: string, agent: Agent, languageRequest: seq<Message>,
                             request: seq<Message>, lookup: Option<CryptoApi.Lookup>)

  const DefaultCacheDuration: real := 300.0
  const DefaultRateLimitDelay: real := 1.0

  /** Number of history turns sent with each chat request. */
  const WindowSize: nat := 5

  /** The asset whose price is added to price answers. */
  const PriceAsset: string := "bitcoin"

  /** The words that make a message a price question, matched as substrings of
      the lower-cased message. */
  const PriceKeywords: seq<string> := ["price", "valor", "precio", "worth", "cost", "価格"]

  const FallbackLanguage: string := "en"
  const ErrorPrefix: string := "An error occurred: "

  /** A new agent: empty history, empty price cache, and the configured
      durations with 300 and 1 as defaults for missing keys. */
  function NewAgent(cacheDuration: Option<real>, rateLimitDelay: Option<real>): (a: Agent)
    ensures a.history == [] && a.api.cache == map[] && a.api.lastApiCall == 0.0
    ensures a.config.cacheDuration == (if cacheDuration.Some? then cacheDuration.value else 300.0)
    ensures a.config.rateLimitDelay == (if rateLimitDelay.Some? then rateLimitDelay.value else 1.0)
  {
    var cd := match cacheDuration case Some(d) => d case None => DefaultCacheDuration;
    var rl := match rateLimitDelay case Some(d) => d case None => DefaultRateLimitDelay;
    Agent(Config(cd, rl), [], CryptoApi.Empty)
  }

  const LanguageInstruction: string := "You are a language detection tool. Respond with only the ISO language code."
  const LanguageQuestion: string := "What language is this text in: "

  /** The request `detect_language` sends: an instruction and the user's text. */
  function LanguageRequest(text: string): (req: seq<Message>)
    ensures |req| == 2 && req[0].role == System && req[1].role == User
    ensures IsSubstring(text, req[1].content)
  {
    OccursInMiddle(LanguageQuestion, text, "");
    assert LanguageQuestion + text + "" == LanguageQuestion + text;
    [Message(System, LanguageInstruction), Message(User, LanguageQuestion + text)]
  }

  /** `detect_language`: the model's answer stripped of surrounding whitespace,
      or "en" whenever the call fails. */
  function DetectLanguage(reply: Result<string, string>): (lang: string)
    ensures reply.Failure? ==> lang == "en"
    ensures reply.Success? ==> lang == Strip(reply.value)
  {
    match reply
    case Success(answer) => Strip(answer)
    case Failure(_) => FallbackLanguage
  }

  /** The fixed text of the system prompt before and after the language name. */
  const PromptHead: string := "You are a helpful cryptocurrency assistant. \n                The user is writing in "
  const PromptTail: string := ". \n                Always respond in English, but acknowledge their language.\n                You have access to real-time crypto prices.\n                Keep responses concise and focused on cryptocurrency information."

  /** The system prompt, which names the detected language. */
  function SystemPrompt(lang: string): (p: string)
    ensures IsSubstring(lang, p)
  {
    OccursInMiddle(PromptHead, lang, PromptTail);
    PromptHead + lang + PromptTail
  }

  function ToMessage(t: Turn): Message {
    Message(t.role, t.content)
  }

  function Min(x: int, y: int): int {
    if x <= y then x else y
  }

  /** The chat request: the system prompt followed by the last five turns of
      `history` (all of them when there are fewer), reduced to role and content. */
  function BuildRequest(lang: string, history: seq<Turn>): (req: seq<Message>)
    ensures |req| == 1 + Min(WindowSize, |history|)
    ensures req[0] == Message(System, SystemPrompt(lang))
    ensures forall i :: 1 <= i < |req| ==> req[i] == ToMessage(history[|history| - |req| + i])
  {
    var recent := history[|history| - Min(WindowSize, |history|)..];
    [Message(System, SystemPrompt(lang))] + seq(|recent|, i requires 0 <= i < |recent| => ToMessage(recent[i]))
  }

  /** Some keyword of `keys` occurs in `hay`. */
  function AnyOccurs(keys: seq<string>, hay: string): (r: bool)
    ensures r <==> exists k :: k in keys && IsSubstring(k, hay)
  {
    if |keys| == 0 then false
    else Contains(keys[0], hay) || AnyOccurs(keys[1..], hay)
  }

  /** The message asks about prices: a keyword occurs in its lower-cased form. */
  function PriceQuestion(message: string): (r: bool)
    ensures r <==> exists k :: k in PriceKeywords && IsSubstring(k, Lower(message))
  {
    AnyOccurs(PriceKeywords, Lower(message))
  }

  /** `data.get('bitcoin', {}).get('usd', 0)`: the Bitcoin price in dollars, 0 when either key is missing. */
  function BitcoinUsd(data: CryptoApi.Payload): (price: real)
    ensures PriceAsset in data && "usd" in data[PriceAsset] ==> price == data[PriceAsset]["usd"]
    ensures !(PriceAsset in data && "usd" in data[PriceAsset]) ==> price == 0.0
  {
    var quotes := if PriceAsset in data then data[PriceAsset] else map[];
    if "usd" in quotes then quotes["usd"] else 0.0
  }

  /** The line added to a price answer. */
  function PriceLine(formatted: string): string {
    "\nCurrent BTC Price: $" + formatted + " USD"
  }

  /** The line added instead when the price lookup raised. */
  function Apology(error: string): string {
    "\nSorry, I couldn't fetch the current price. Error: " + error
  }

  /** The text added to the model's reply for a price question. */
  function PriceSuffix(l: CryptoApi.Lookup, format: real -> string): string {
    match l.result
    case Success(data) => PriceLine(format(BitcoinUsd(data)))
    case Failure(error) => Apology(error)
  }

  /** What a reply becomes, and what the price client becomes, once the chat
      call has answered `reply`. */
  datatype Answer = Answer(response: string, api: CryptoApi.Api, lookup: Option<CryptoApi.Lookup>)

  /** The price step of `process_message`: a price question gets the price line
      or the apology appended, through one lookup of the agent's client; any
      other message is answered with the reply alone and no lookup. */
  function AnswerWith(a: Agent, message: string, now: real, reply: string,
                      price: CryptoApi.FetchReply, format: real -> string): (r: Answer)
    ensures r.lookup.Some? <==> PriceQuestion(message)
    ensures r.lookup.None? ==> r.api == a.api && r.response == reply
    ensures r.lookup.Some? ==>
      r.lookup.value == CryptoApi.GetPrice(a.api, PriceAsset, a.config.cacheDuration,
                                           a.config.rateLimitDelay, now, price) &&
      r.api == r.lookup.value.api &&
      r.response == reply + PriceSuffix(r.lookup.value, format)
  {
    if PriceQuestion(message) then
      var lookup := CryptoApi.GetPrice(a.api, PriceAsset, a.config.cacheDuration,
                                       a.config.rateLimitDelay, now, price);
      Answer(reply + PriceSuffix(lookup, format), lookup.api, Some(lookup))
    else
      Answer(reply, a.api, None)
  }

  /** `process_message(message)` at time `now`. */
  function ProcessMessage(a: Agent, message: string, now: real, oracle: Oracle,
                          format: real -> string): (o: Outcome)
    // The configuration never changes and the history only grows.
    ensures o.agent.config == a.config
    ensures |o.agent.history| > |a.history| && o.agent.history[..|a.history|] == a.history
    // The user turn is recorded first, with the language detected for it.
    ensures o.languageRequest == LanguageRequest(message)
    ensures o.agent.history[|a.history|] == Turn(User, message, Some(DetectLanguage(oracle.language)))
    // The chat request holds the system prompt and the last five turns, the new user turn last.
    ensures o.request == BuildRequest(DetectLanguage(oracle.language), o.agent.history[..|a.history| + 1])
    ensures |o.request| == 1 + Min(WindowSize, |a.history| + 1)
    ensures o.request[|o.request| - 1] == Message(User, message)
    // A failed chat call becomes the returned error text; the user turn stays dangling.
    ensures oracle.chat.Failure? ==>
      o.response == ErrorPrefix + oracle.chat.error &&
      |o.agent.history| == |a.history| + 1 && o.agent.api == a.api && o.lookup.None?
    // A reply adds exactly one assistant turn holding the returned text.
    ensures oracle.chat.Success? ==>
      |o.agent.history| == |a.history| + 2 &&
      o.agent.history[|a.history| + 1] == Turn(Assistant, o.response, None)
    // The price is looked up exactly for price questions, through the agent's client.
    ensures o.lookup.Some? <==> oracle.chat.Success? && PriceQuestion(message)
    ensures o.lookup.None? ==> o.agent.api == a.api
    ensures oracle.chat.Success? && !PriceQuestion(message) ==> o.response == oracle.chat.value
    ensures o.lookup.Some? ==>
      o.lookup.value == CryptoApi.GetPrice(a.api, PriceAsset, a.config.cacheDuration,
                                           a.config.rateLimitDelay, now, oracle.price) &&
      o.agent.api == o.lookup.value.api &&
      o.response == oracle.chat.value + PriceSuffix(o.lookup.value, format)
  {
    var lang := DetectLanguage(oracle.language);
    var history := a.history + [Turn(User, message, Some(lang))];
    var request := BuildRequest(lang, history);
    match oracle.chat
    case Failure(error) =>
      Outcome(ErrorPrefix + error, a.(history := history), LanguageRequest(message), request, None)
    case Success(reply) =>
      var answer := AnswerWith(a, message, now, reply, oracle.price, format);
      Outcome(answer.response,
              a.(history := history + [Turn(Assistant, answer.response, None)], api := answer.api),
              LanguageRequest(message), request, answer.lookup)
  }

  /** `clear_context()`: forgets the conversation, keeping the configuration and the price cache. */
  function ClearContext(a: Agent): (c: Agent)
    ensures |c.history| == 0
    ensures c.config == a.config && c.api == a.api
  {
    a.(history := [])
  }

  /** Lower-casing the message first does not change whether it is a price question. */
  lemma PriceQuestionIgnoresCase(message: string)
    ensures PriceQuestion(Lower(message)) == PriceQuestion(message)
  {
    LowerIdempotent(message);
  }

  /** Keywords match as substrings: "costume" counts as a price question. */
  lemma CostumeIsPriceQuestion()
    ensures PriceQuestion("costume")
  {
  }

  /** Matching is case-insensitive: "BITCOIN PRICE?" is a price question. */
  lemma ShoutedPriceQuestion()
    ensures PriceQuestion("BITCOIN PRICE?")
  {
    var low := Lower("BITCOIN PRICE?");
    assert low == "bitcoin price?";
    assert OccursAt("price", low, 8);
    assert "price" in PriceKeywords;
  }

  /** A message without any keyword is not a price question: "blockchain". */
  lemma BlockchainIsNotPriceQuestion()
    ensures !PriceQuestion("blockchain")
  {
    var hay := "blockchain";
    LowerOfLowercase(hay);
    assert 'p' !in hay && 'v' !in hay && 'w' !in hay && 's' !in hay && '価' !in hay;
    MissingCharNotSubstring("price", hay, 'p');
    MissingCharNotSubstring("valor", hay, 'v');
    MissingCharNotSubstring("precio", hay, 'p');
    MissingCharNotSubstring("worth", hay, 'w');
    MissingCharNotSubstring("cost", hay, 's');
    MissingCharNotSubstring("価格", hay, '価');
    assert forall k :: k in PriceKeywords ==> !IsSubstring(k, Lower(hay));
  }

  /** After `clear_context()` the next chat request carries no earlier turn:
      only the system prompt and the new message. */
  lemma ClearedContextStartsOver(a: Agent, message: string, now: real, oracle: Oracle,
                                 format: real -> string)
    ensures var o := ProcessMessage(ClearContext(a), message, now, oracle, format);
      o.request == [Message(System, SystemPrompt(DetectLanguage(oracle.language))), Message(User, message)]
  {
  }

  /** With four or more earlier turns the request holds exactly the system
      prompt, the last four earlier turns and the new user turn. */
  lemma LongHistoryWindow(a: Agent, message: string, now: real, oracle: Oracle,
                          format: real -> string)
    requires |a.history| >= 4
    ensures var o := ProcessMessage(a, message, now, oracle, format);
      |o.request| == 6 &&
      (forall i :: 1 <= i < 5 ==> o.request[i] == ToMessage(a.history[|a.history| - 5 + i])) &&
      o.request[5] == Message(User, message)
  {
  }

  /** Two price questions answered less than the cache duration apart, the
      first lookup successful, go upstream for the price at most once. */
  lemma PriceQuestionsShareCache(a: Agent, m1: string, t1: real, o1: Oracle,
                                 m2: string, t2: real, o2: Oracle, format: real -> string)
    requires o1.chat.Success? && PriceQuestion(m1)
    requires CryptoApi.GetPrice(a.api, PriceAsset, a.config.cacheDuration, a.config.rateLimitDelay,
                                t1, o1.price).result.Success?
    requires t1 <= t2 < t1 + a.config.cacheDuration
    ensures var first := ProcessMessage(a, m1, t1, o1, format);
      var second := ProcessMessage(first.agent, m2, t2, o2, format);
      first.lookup.Some? &&
      CryptoApi.Fetches(first.lookup.value) +
        (if second.lookup.Some? then CryptoApi.Fetches(second.lookup.value) else 0) <= 1
  {
  }

  /** "what's the bitcoin price?" is a price question. */
  lemma BitcoinPriceQuestion()
    ensures PriceQuestion("what's the bitcoin price?")
  {
    var message := "what's the bitcoin price?";
    LowerOfLowercase(message);
    assert OccursAt("price", message, 19);
    assert "price" in PriceKeywords;
  }

  /** A fresh agent with the default configuration, asked a price question
      while the endpoint answers 65000.5 dollars for Bitcoin, answers with the
      model's reply followed by that price and caches the body. */
  lemma FreshAgentPriceAnswer(message: string, reply: string, now: real,
                              language: Result<string, string>, format: real -> string)
    requires PriceQuestion(message)
    ensures var data := map[PriceAsset := map["usd" := 65000.5]];
      var o := ProcessMessage(NewAgent(None, None), message, now,
                              Oracle(language, Success(reply), CryptoApi.Fetched(data)), format);
      o.response == reply + PriceLine(format(65000.5)) &&
      o.agent.api.cache == map[PriceAsset := CryptoApi.Entry(now, data)]
  {
  }

  /** When the price endpoint fails, a price question is still answered: the
      reply gets the apology naming the upstream error, and it is recorded. */
  lemma PriceFailureApologises(a: Agent, message: string, now: real, language: Result<string, string>,
                               reply: string, reason: string, format: real -> string)
    requires PriceQuestion(message)
    requires !CryptoApi.CacheHit(a.api, PriceAsset, now, a.config.cacheDuration)
    requires a.config.rateLimitDelay >= 0.0
    ensures var o := ProcessMessage(a, message, now,
                                    Oracle(language, Success(reply), CryptoApi.FetchFailed(reason)), format);
      o.response == reply + Apology(CryptoApi.FetchErrorPrefix + reason) &&
      o.agent.history[|o.agent.history| - 1] == Turn(Assistant, o.response, None) &&
      o.agent.api == a.api
  {
  }

  /** One message of a session: the text, the clock reading and the outside world's replies. */
  datatype Ask = Ask(message: string, now: real, oracle: Oracle)

  /** The agent after answering `asks` in turn. */
  function Converse(a: Agent, asks: seq<Ask>, format: real -> string): Agent
    decreases |asks|
  {
    if |asks| == 0 then a
    else Converse(ProcessMessage(a, asks[0].message, asks[0].now, asks[0].oracle, format).agent,
                  asks[1..], format)
  }

  /** Number of asks whose chat call succeeded: each of those adds two turns. */
  function Answered(asks: seq<Ask>): nat
  {
    if |asks| == 0 then 0
    else (if asks[0].oracle.chat.Success? then 1 else 0) + Answered(asks[1..])
  }

  /** Without a reset the history is an append-only log: a session of messages
      keeps the earlier history as a prefix, adds one turn per message and one
      more per answered message, and never changes the configuration. */
  lemma {:induction false} ConverseAppends(a: Agent, asks: seq<Ask>, format: real -> string)
    ensures var b := Converse(a, asks, format);
      b.config == a.config &&
      |b.history| == |a.history| + |asks| + Answered(asks) &&
      b.history[..|a.history|] == a.history
    decreases |asks|
  {
    if |asks| > 0 {
      var next := ProcessMessage(a, asks[0].message, asks[0].now, asks[0].oracle, format).agent;
      ConverseAppends(next, asks[1..], format);
      var b := Converse(next, asks[1..], format);
      assert b.history[..|a.history|] == b.history[..|next.history|][..|a.history|];
    }
  }
}
