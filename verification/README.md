# Crypto assistant core in Dafny

A model of the deterministic core of a small chat assistant. The assistant answers cryptocurrency questions with a hosted chat model and the CoinGecko price API. Three pieces are modelled. Each is a pure step function over immutable state. The clock, the HTTP fetch and the chat-model replies are inputs. The sleep is reported as an output, not performed.

- **Price client** (`CryptoApi`, `crypto_api.dfy`). `CryptoAPI.get_price` keeps a cache keyed by the symbol exactly as given. A fresh entry (younger than `cache_duration`) is returned unchanged. Otherwise the call sleeps the full `rate_limit_delay` when the last successful upstream call was read less than that delay ago. It then asks the endpoint for the lower-cased asset id. On success it overwrites that one entry with the time read at the start of the call and records that time as the last call. A failure changes nothing. `clear_cache` empties the cache but keeps the last call time.
- **Conversation agent** (`CryptoAgent`, `crypto_agent.dfy`). `CryptoAgent.process_message` first detects the language; on any failure the language is "en". It then appends the user turn. It sends the system prompt plus the last five turns. For price questions it adds a Bitcoin price line, or an apology when the lookup raises. Finally it records the assistant turn. A failed chat call becomes the returned text "An error occurred: …" and leaves the user turn without an answer. A price question is a message whose lower-cased form contains "price", "valor", "precio", "worth", "cost" or "価格" as a substring. `clear_context` empties the history. It does not clear the price cache.
- **Price history** (`PriceHistory`, `price_history.dfy`). `StreamlitCryptoApp.update_price_history` appends `(now, price)`. It then keeps only samples strictly newer than one day before `now`.

`Text` (`text.dfy`) models the Python string operations these use: `str.lower()`, `str.strip()` and `needle in hay`. `Wrappers` (`wrappers.dfy`) holds `Option` and `Result`. A `Result` failure carries the raised exception's text.

Time is a `real` number of seconds. The sleep is reported as `pause`, the duration passed to `time.sleep`. The request sent upstream is reported as `request`.

Notes on the code's behaviour:
- When a call is throttled, it sleeps the whole `rate_limit_delay` (src/crypto_api.py:35-36), however much of the interval has already passed.
- An entry whose age equals `cache_duration` is already stale, because freshness is `now - fetched_at < cache_duration` (src/crypto_api.py:31).
- The recorded call time is the clock reading taken before the sleep (src/crypto_api.py:26, 46). So two upstream requests can be sent closer together than the delay, although the docstring (src/crypto_api.py:18) calls it the minimum delay between API calls. `CryptoApi.ThrottleGapExample` shows an instance. `CryptoApi.ReadTimesSpaced` states what the throttle does guarantee.

## Model

| member | source | states |
|---|---|---|
| CryptoApi.GetPrice | src/crypto_api.py:26-50 | A fresh entry is returned with no sleep, request or state change. Otherwise the full delay is slept exactly when the call is throttled. The lower-cased symbol is then requested. If the sleep raises (negative delay), the call fails with that error before any request and with the state unchanged. Success stores `(now, data)` under the symbol as given, sets the last call to `now` and returns `data`. A failure leaves the state untouched, including a stale entry. Other symbols' entries never change. |
| CryptoApi.ClearCache | src/crypto_api.py:52-54 | Afterwards no symbol is cached; the last call time is unchanged |
| CryptoApi.FirstCallFetches | src/crypto_api.py:6-9 | A new client (empty cache, last call 0) sends every first call upstream and sleeps only if the clock reads less than the delay |
| CryptoApi.ClearedCacheFetches | src/crypto_api.py:52-54 | After clearing, every call goes upstream and the throttle decision is what it would have been without clearing |
| CryptoApi.AtMostOneFetch | src/crypto_api.py:29-46 | Two calls for one symbol, the first successful and the second less than the cache duration later, make at most one upstream request; if the first fetched, the second returns the same payload and state |
| CryptoApi.SymbolsAreCaseSensitive | src/crypto_api.py:29-45 | After a fetch for one symbol, a different uncached symbol still goes upstream, even if both lower-case to the same asset id |
| CryptoApi.BitcoinCapitalised | src/crypto_api.py:29-45 | After a new client fetches "bitcoin", "Bitcoin" has no cache entry, and a call for it asks upstream for "bitcoin" again |
| CryptoApi.ReadTimesSpaced | src/crypto_api.py:35-46 | An upstream call made without sleeping was read at least the delay after the previous successful call was read |
| CryptoApi.ThrottleGapExample | src/crypto_api.py:35-46 | With a 1 s delay, requests can be sent 0.1 s apart, because the recorded call time predates the sleep |
| CryptoAgent.NewAgent | src/agent.py:15-26 | A new agent has an empty history and an empty price client; a missing cache duration defaults to 300 and a missing delay to 1 |
| CryptoAgent.LanguageRequest | src/agent.py:40-51 | The detection request is an instruction followed by a user message that contains the text |
| CryptoAgent.DetectLanguage | src/agent.py:39-57 | The answer is the model reply stripped of surrounding whitespace, or "en" when the call fails |
| CryptoAgent.SystemPrompt | src/agent.py:93-100 | The system prompt names the detected language |
| CryptoAgent.BuildRequest | src/agent.py:103-112 | The chat request is the system prompt followed by the last min(5, n) turns, reduced to role and content, in order |
| CryptoAgent.PriceQuestion | src/agent.py:117 | True exactly when some keyword occurs as a substring of the lower-cased message |
| CryptoAgent.BitcoinUsd | src/agent.py:120 | The bitcoin/usd amount when both keys are present, 0 when either is missing |
| CryptoAgent.AnswerWith | src/agent.py:117-123 | A price question goes through exactly one lookup of the agent's client, and the reply gets the price line on success or the apology naming the error; any other message keeps the reply and the client unchanged |
| CryptoAgent.ProcessMessage | src/agent.py:81-134 | The history only grows and starts with the user turn and its detected language. The request window ends with that turn. A chat failure returns "An error occurred: " plus the error and adds one turn. A reply adds two turns, the second holding the returned text. The price is looked up via the agent's client exactly for price questions, and the reply gets the price line or the apology. The price cache changes only through that lookup. |
| CryptoAgent.ClearContext | src/agent.py:136-138 | The history becomes empty; configuration and price cache are kept |
| CryptoAgent.PriceQuestionIgnoresCase | src/agent.py:117 | Lower-casing a message first does not change whether it is a price question |
| CryptoAgent.CostumeIsPriceQuestion | src/agent.py:117 | "costume" is a price question, because "cost" is matched as a substring |
| CryptoAgent.ShoutedPriceQuestion | src/agent.py:117 | "BITCOIN PRICE?" is a price question, because matching ignores case |
| CryptoAgent.BlockchainIsNotPriceQuestion | src/agent.py:117 | "blockchain" is not a price question |
| CryptoAgent.BitcoinPriceQuestion | src/agent.py:117 | "what's the bitcoin price?" is a price question |
| CryptoAgent.ClearedContextStartsOver | src/agent.py:105-109 | After clearing the context, the next request holds only the system prompt and the new message |
| CryptoAgent.LongHistoryWindow | src/agent.py:105-109 | With four or more earlier turns, the request is the system prompt, the last four earlier turns and the new user turn |
| CryptoAgent.PriceQuestionsShareCache | src/agent.py:117-120 | Two price questions less than the cache duration apart, the first lookup succeeding, make at most one upstream price request |
| CryptoAgent.FreshAgentPriceAnswer | src/agent.py:117-121 | A fresh default agent asked a price question, with the endpoint answering 65000.5 USD, replies with the model text plus that price's line and caches the body |
| CryptoAgent.PriceFailureApologises | src/agent.py:118-129 | A price question whose lookup fails upstream is answered with the reply plus the apology naming the error. The answer is recorded and the cache is untouched. |
| CryptoAgent.ConverseAppends | src/agent.py:86-131 | Over any session of messages without a reset, the earlier history stays a prefix and the configuration is unchanged. The history grows by one turn per message plus one per answered message. |
| Text.Lower | src/agent.py:117 | `str.lower()` keeps the length and lower-cases each character in place |
| Text.LowerIdempotent | src/agent.py:117 | Lower-casing twice equals lower-casing once |
| Text.TrimLeft | src/agent.py:55 | The result is a suffix, everything removed is whitespace, and it does not start with whitespace |
| Text.TrimRight | src/agent.py:55 | The result is a prefix, everything removed is whitespace, and it does not end with whitespace |
| Text.Strip | src/agent.py:55 | `str.strip()` yields the piece of the input that starts after its leading whitespace, has only whitespace after it, and neither starts nor ends with whitespace |
| Text.StripIdempotent | src/agent.py:55 | Stripping twice equals stripping once |
| Text.Contains | src/agent.py:117 | The executable substring search agrees with "occurs at some index" |
| Text.MissingCharNotSubstring | src/agent.py:117 | A keyword holding a character the message lacks does not occur in it |
| PriceHistory.KeepNewer | app.py:63-68 | Every kept sample is strictly newer than the cutoff, and no more samples come out than went in |
| PriceHistory.KeepNewerCounts | app.py:65-68 | Each sample newer than the cutoff is kept with all its copies; no older sample is kept |
| PriceHistory.KeepNewerMembers | app.py:65-68 | A sample is kept exactly when it is present and newer than the cutoff |
| PriceHistory.KeepNewerIsSubsequence | app.py:65-68 | The kept samples form an order-preserving subsequence of the input |
| PriceHistory.KeepNewerAppend | app.py:57-68 | Filtering a list ending in a kept sample equals filtering the rest and then appending that sample |
| PriceHistory.UpdatePriceHistory | app.py:55-68 | Every retained sample is less than a day old. The result is the old samples from the last day, every copy kept and in their order, followed by the new sample. It is an order-preserving subsequence of the old list plus the new sample, at most one longer. |
| PriceHistory.DayOldSampleDropped | app.py:64-68 | A sample exactly one day old is dropped |

## Left out

- HTTP and the chat-model client are not modelled. The price endpoint's answer (`FetchReply`) and the two chat replies (`Oracle`) are inputs. `time.time()` is the `now` parameter. `time.sleep` is reported as `pause`, not performed.
- Only a JSON object of objects of numbers is a payload; other bodies are not modelled. In the code, a non-object body or `bitcoin` value makes `.get` raise. A non-numeric `usd` value makes the formatting at src/agent.py:121 raise, or print 1.00/0.00 for a boolean.
- A JSON decoding error of the price body is treated like a request error.
- A chat reply whose message content is null is not modelled. In the code, a null reply to a non-price question would be returned and recorded as-is.
- The `lru_cache` memoization of `detect_language` (src/agent.py:28) is not modelled. Its eviction is library-internal, and each call's detection reply is an input.
- Price formatting (`f"{price:,.2f}"`) is the opaque `format` parameter. Floating-point rounding of times and prices is not modelled; both are `real`.
- Text.Lower: lower-cases only ASCII letters; Python's full Unicode case mapping, which can change a string's length, is not modelled.
- Reading `config/config.json` and the API key, `src/utils.py`, and the command-line loop of `main.py` are input/output glue and are not modelled.
- The Streamlit and Plotly rendering of `app.py` is not modelled. This includes `handle_user_input`, whose keyword list (app.py:95) lacks "価格".
- There is no concurrency in the code. The shared cache has no locking, so nothing about interleavings is modelled.
