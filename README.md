# FiverBot routing, modelled in Dafny

FiverBot is a Telegram bot. It answers inline-button presses and free-text
messages with one of a handful of canned replies: a greeting, an "about"
text, a contact menu, a sales pitch for a Fiverr gig, a booking link, or a
help hint. For free text it first asks a chat-completion endpoint for an
answer and an optional `intent` label. This model covers the three
decisions inside the handlers of `main.py`:

- `button`: the `callback_data` of a pressed button selects a reply, or none.
- `get_grok_response`: the HTTP response is reduced to `(content, intent)`.
  Any status other than 200 gives a fixed apology and no intent.
- `reply_to_message`: the text is lower-cased, sent to the AI, and routed
  by a priority chain: gig, then schedule, then contact, then help. Within
  each tier a keyword in the text and an exact intent are alternatives.

Files:

- `wrappers.dfy`: `Option`, standing for Python's `None` or a value.
- `strings.dfy`: ASCII lower-casing and substring membership (`kw in text`).
  `Contains` is specified against a ghost definition (`Occurs`: some index
  where the keyword stands).
- `replies.dfy`: the `Reply` datatype, the reply texts, and `ButtonRoute`.
- `grok.dfy`: the abstract response (status code and first choice) and `AiResult`.
- `router.dfy`: `Route` (the priority chain on lower-cased text and an
  intent) and `Handle` (the whole handler, with the endpoint as a
  function parameter).

In `main.py:114-119` the keyword test and the intent test are OR-ed
within each tier, so keywords are not checked before the intent: an
`ask_about_gig` intent beats a "schedule" keyword
(`Router.GigIntentOverridesKeywords`). A call that returns a status other
than 200 only removes the intent; it does not send every message to the
help text, and keywords still route (`Router.FailedAiKeepsKeywords`). A
call that raises or hangs is a different case: no reply is sent at all
(see "## Left out").

## Model

| member | source | states |
|---|---|---|
| `Strings.Contains` | main.py:114-118 | Python's `kw in text` is true exactly when `kw` stands in `text` at some index |
| `Strings.LowerChar` | main.py:110 | an ASCII capital becomes the small letter 32 code points above it, every other character is kept, and no result is a capital |
| `Strings.Lower` | main.py:110 | the lower-cased text has the same length and is the original lower-cased character by character |
| `Strings.ContainsAfterLower` | main.py:110-118 | matching a keyword against the lower-cased text finds it in any letter case: exactly when some slice of the original text lower-cases to the keyword |
| `Strings.LowerIdempotent` | main.py:110 | lower-casing an already lower-cased text changes nothing |
| `Replies.Text` | main.py:65-75 | the reply texts of main.py:41, 43, 59, 65-75, 83 and 123; the sales pitch ends with a Markdown link whose target is the gig link |
| `Replies.ButtonRoute` | main.py:40-49 | a callback id selects a reply exactly when it is one of hello, about, contact, gig, schedule; the i-th id selects the i-th reply (Hello, About, Contact, Gig, Schedule); any other id selects none, and no button selects the help text |
| `Replies.ButtonRouteInjective` | main.py:40-49 | each reply a button can select is selected by exactly one callback id |
| `Grok.AiResult` | main.py:100-106 | on status 200 the result is the first choice's content and intent (None when absent); on any other status it is the fixed apology with no intent; an intent is present only after a 200 |
| `Grok.FailureIndistinguishable` | main.py:100-106 | a failed call gives the same result whatever its status or body, and the same result as a 200 whose content is the apology with no intent |
| `Router.Route` | main.py:114-124 | the reply is Gig exactly when the text has "gig" or the intent is `ask_about_gig`; Schedule exactly when that fails and the text has "schedule" or "appointment" or the intent is `schedule_meeting`; Contact exactly when both fail and the text has "contact" or the intent is `contact_info`; Help exactly when none holds |
| `Router.Handle` | main.py:109-124 | when the AI call returns 200 the reply is the route of the lower-cased text and that response's intent; when it returns any other status the reply is the keyword-only route of the lower-cased text; "gig" in any letter case yields Gig whatever the AI answers; the free-text handler never sends the hello or about reply |
| `Router.GigIntentOverridesKeywords` | main.py:114-119 | an `ask_about_gig` intent routes to Gig whatever schedule or contact keywords the text holds |
| `Router.UnknownIntentIgnored` | main.py:114-119 | an intent other than the three known labels routes exactly as no intent |
| `Router.IntentCaseSensitive` | main.py:114 | the intent is compared exactly: `ASK_ABOUT_GIG` with an empty text gives Help, `ask_about_gig` gives Gig |
| `Router.HandleIgnoresCase` | main.py:110-111 | handling the lower-cased text gives the same reply as handling the text, because both the AI and the router only see the lower-cased text |
| `Router.HandleSameUpToCase` | main.py:110-111 | two texts equal up to ASCII letter case get the same reply for any endpoint |
| `Router.FailedAiKeepsKeywords` | main.py:100-117 | with a failing endpoint, "Can I book an appointment?" still routes to Schedule, not to Help |
| `Router.ContactIntentRoutes` | main.py:111-119 | with a 200 response carrying intent `contact_info`, "How do I reach you?", which holds no keyword, routes to Contact |
| `Router.ButtonsAgreeWithKeywords` | main.py:44-49 | the gig, schedule and contact buttons select the same reply as that keyword typed as text with no intent |

## Left out

- Telegram I/O: `reply_text`, `send_message`, `query.answer`, the inline keyboards, Markdown rendering, handler registration and polling (main.py:26-34, 51-85, 126-139). These are calls into the Telegram library. `Replies.Text` keeps only the reply texts.
- The `/start`, `/gig`, `/contact` and `/schedule` commands: the library dispatches them straight to the reply functions, with no decision in this repository.
- The HTTP POST and the JSON decoding (main.py:89-99, 101). The endpoint is a parameter `string -> Response`. A response is a status code plus the first choice's content and intent.
- A call that raises or hangs: `requests.post` (main.py:97) raises on a network error or when `GROK_API_URL` is unset, and it can wait forever because no timeout is set. Nothing catches the exception, so the handler stops before main.py:114 and sends no reply. `Handle` models only calls that return a status; its endpoint is a total function.
- Router.HandleIgnoresCase and Router.HandleSameUpToCase treat the endpoint as deterministic, a function from text to response, while the real AI may answer the same text differently twice. What they prove is that the reply depends on the text only through its lower-cased form.
- A 200 response without `choices[0].message.content` raises in the source (main.py:103). The abstract response always has a first choice, so this exception is not modelled.
- An `intent` that is a JSON value other than a string: the model's intent is `Option<string>`.
- Strings.Lower: ASCII-only, while Python's `str.lower` lower-cases all of Unicode. Non-ASCII capitals are kept as they are.
- Which object a reply is sent through. `schedule` picks `update.message` or `update.callback_query` (main.py:82-85). `gig` uses `update.message`, which is absent on a button press, so the "gig" button would fail when sending (main.py:46-47, 76). `ButtonRoute` models only which reply is chosen.
- The AI's `content` is computed but never used by `reply_to_message`. `Handle` discards it too.
- Environment loading, logging and async/await (main.py:9-23, 96-99). The booking URL comes from the environment and only appears in a keyboard, so it is not modelled.
