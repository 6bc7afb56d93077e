# Reply generation of the ayamil-ai backend, in Dafny

This project models `generate_reply` from `backend/app/ai_engine.py`. The
backend uses it to turn a stored business description (`business_text`) and
a customer's message (`user_message`) into a draft reply. It has two modes.

- **External mode** applies when the `OPENAI_API_KEY` setting is truthy
  (present and not empty). It builds a prompt that quotes both inputs
  verbatim. It posts a chat-completion request carrying that prompt. From the
  JSON answer it returns `choices[0].message.content`, stripped of surrounding
  whitespace. When the body has any other shape, it returns a fixed apology.
- **Local mode** applies otherwise. It fills a fixed template with a
  greeting, the first 500 characters of the business text followed by `...`,
  the customer's message, and a "say 'talk to human'" call to action.

The model is functional. The start-up setting is an explicit `Config` value
rather than a module-level global. The HTTP call together with `res.json()`
is a parameter `post: HttpRequest -> Upstream`. Its result is either the
parsed body or the exception it raised. Python strings are `seq<char>`.
`str.strip()` removes exactly CPython's whitespace code points (`Text.IsSpace`).
`s[:500]` is `Text.Take`. Subscripting a parsed JSON value follows Python's
rules (`PyJson.Subscript`). That covers `KeyError`, `IndexError` and
`TypeError`, and also the case where indexing a `str` yields a one-character
`str`. Every function is deterministic, so the same inputs always give the
same reply.

Modules:

- `Wrappers` (wrappers.dfy): `Option`, the result of a Python step that may raise.
- `Text` (text.dfy): `str.strip()`, `str.isspace()` and the `[:n]` slice.
- `PyJson` (py_json.dfy): the values `json.loads` returns, and `v[k]` on them.
- `AiEngine` (ai_engine.dfy): the prompt, the request, the extraction, the template reply and `generate_reply`.

Only the field extraction at line 41 sits inside `try`. An exception from
`client.post(...)` (line 38) or `res.json()` (line 39) escapes
`generate_reply`. So `GenerateReply` returns `Raised(e)` for those cases, and
`Apology` only for a body that parsed but has the wrong shape. A non-2xx
status with a JSON error body parses, so it gets the apology.

## Model

| member | source | states |
|---|---|---|
| `Text.LeadingSpaces` | backend/app/ai_engine.py:41 | the whitespace run at the front of a string: it is all whitespace and is followed by a non-whitespace character or the end |
| `Text.TrailingSpaces` | backend/app/ai_engine.py:41 | the same for the whitespace run at the back |
| `Text.Strip` | backend/app/ai_engine.py:41 | `.strip()` returns a string no longer than its input, with no whitespace at either end |
| `Text.StripPadded` | backend/app/ai_engine.py:41 | the stripped string occurs in the input right after the leading whitespace, and only whitespace follows it |
| `Text.StripUnique` | backend/app/ai_engine.py:41 | those two facts determine the result: any trimmed infix with only whitespace around it is `Strip` of the string |
| `Text.StripIdempotent` | backend/app/ai_engine.py:41 | stripping an already stripped reply changes nothing |
| `Text.Take` | backend/app/ai_engine.py:49 | `s[:n]` is a prefix of `s` of length `min(len(s), n)`: the whole string when shorter, else its first `n` characters |
| `PyJson.Position` | backend/app/ai_engine.py:41 | a Python list or string index is valid iff `-len <= i < len`, and a negative one counts from the end |
| `PyJson.Subscript` | backend/app/ai_engine.py:41 | only dicts, lists and strings can be subscripted; a dict lookup succeeds iff the key is a present string and then gives its value; a list or string refuses a string key; an integer index valid by Python's rules (negative counts from the end) gives that list element, or that character as a one-character string, and any other index raises |
| `AiEngine.BuildPrompt` | backend/app/ai_engine.py:20-22 | the prompt is exactly as long as the fixed texts plus both inputs, so nothing is dropped or added |
| `AiEngine.PromptLayout` | backend/app/ai_engine.py:20-22 | the prompt is the fixed introduction, then `business_text` verbatim, then `"\n\nCustomer: "`, then `user_message` verbatim, then `"\nAssistant:"` |
| `AiEngine.PromptInjective` | backend/app/ai_engine.py:20-22 | if two prompts are equal and their business texts have equal length, then both inputs are equal |
| `AiEngine.PromptNotInjective` | backend/app/ai_engine.py:20-22 | a business text containing the customer marker gives the same prompt as a shorter business text whose message carries the rest, so the prompt alone does not determine its inputs |
| `AiEngine.BuildRequest` | backend/app/ai_engine.py:28-38 | the request goes to the chat-completions URL with a 30 s timeout; its only header is `Authorization`, whose bearer value gives back the key; the body has exactly `model` (`gpt-4o-mini`), `messages` and `max_tokens` (250); `messages` holds exactly two messages, each with exactly `role` and `content`: the system instruction, then the prompt with role `user` |
| `AiEngine.ExternalRequest` | backend/app/ai_engine.py:20-38 | in external mode the request carries the configured key and a user message equal to the prompt built from both inputs |
| `AiEngine.ExtractReply` | backend/app/ai_engine.py:41 | the chain `['choices'][0]['message']['content'].strip()` succeeds iff the body is an object with a non-empty `choices` list whose first element has a `message` object whose `content` is a string; it then yields that content stripped |
| `AiEngine.ReplyFromBody` | backend/app/ai_engine.py:40-43 | a well-shaped body gives its stripped content; every other parsed body gives exactly `"Sorry, I couldn't generate a reply right now."` |
| `AiEngine.ExcerptLength` | backend/app/ai_engine.py:49 | the quoted part of the business text is `min(len, 500)` characters long |
| `AiEngine.FallbackReply` | backend/app/ai_engine.py:47-51 | the local reply's length is the template length plus `min(len(business_text), 500)` plus `len(user_message)` |
| `AiEngine.FallbackLayout` | backend/app/ai_engine.py:47-51 | the local reply starts with the greeting, then `business_text[:500]`, then `...`, then `"\n\nResponse to your message: "`, then `user_message` verbatim, and ends with the talk-to-human sentence |
| `AiEngine.FallbackDependsOnlyOnExcerpt` | backend/app/ai_engine.py:49 | business texts that agree on their first 500 characters give the same local reply, and its length is bounded regardless of the business text's length |
| `AiEngine.FallbackOfEmptyInputs` | backend/app/ai_engine.py:47-51 | with both inputs empty the local reply is the template with empty slots |
| `AiEngine.FallbackInjective` | backend/app/ai_engine.py:47-51 | if two local replies are equal and their excerpts have equal length, then the excerpts are equal and the messages are equal |
| `AiEngine.FallbackNotInjective` | backend/app/ai_engine.py:49 | an excerpt ending in `...` plus the message lead gives the same reply as the shorter excerpt with a message that starts with them |
| `AiEngine.FallbackOfShort` | backend/app/ai_engine.py:49 | a business text of at most 500 characters is quoted whole in the local reply |
| `AiEngine.GenerateReply` | backend/app/ai_engine.py:14-52 | if the key is absent or empty, the result is always the local reply. Otherwise the request is posted: a raised transport error propagates, and a parsed body gives its stripped content or the apology. The result is an exception iff the mode is external and the call raised |
| `AiEngine.LocalModeIgnoresTransport` | backend/app/ai_engine.py:25-52 | in local mode the reply does not depend on what the HTTP call would return |

## Left out

- `backend/app/auth.py`: password hashing and token handling are one-line wrappers over passlib (bcrypt) and python-jose (HS256) with the wall clock. A model would only restate assumptions about those libraries.
- `main.py`, `backend/app/schemas.py`, `backend/app/models.py`: FastAPI wiring, CORS and pydantic declarations. This is HTTP plumbing with no logic of its own. The chat route that calls `generate_reply` is not part of this model.
- `frontend/js/main.js`: DOM updates, `fetch`, `localStorage`. This is user-interface I/O.
- The network call, its 30 s timeout, and `res.json()` are left out. They are I/O, so the `post` parameter stands for them. Only the timeout value and the request contents are modelled.
- `load_dotenv` and `os.getenv` are left out. They read the environment, so `Config` carries the key's value instead.
- A failure of `import httpx` is left out. It would raise outside the `try` just like a transport error, but it depends on the installation and not on the inputs.
- `async`/`await` are left out. Suspension has no effect on the value `generate_reply` returns.
- Python strings that contain lone surrogate code points are left out. Dafny's `char` holds Unicode scalar values only.
- JSON numbers are modelled without their exact textual form. The extraction treats every number alike, as a value that cannot be subscripted.
