# Santa gift questionnaire: session store, schema and suggestion stub in Dafny

This project models the core of the gift questionnaire web application:

- the **session store** (`app/session.py`): a `SessionManager` that keeps one
  row per session id and gets-or-creates, overwrites and deletes session
  payloads, the default `SessionData` payload, and `get_session_id`, which
  turns the `session_id` cookie into a UUID;
- the **records** of `app/schema.py` (`GiftItem`, `GiftSuggestion`,
  `Question`, `QuestionResponse`) and the `dict()` projections of `Question`
  and `QuestionResponse`;
- the **suggestion stub** `process_answers` of `app/llm.py`, which returns a
  fixed summary and four fixed gift ideas stamped with the budget.

Modules, one per concern:

| file | module | contents |
|---|---|---|
| `wrappers.dfy` | `Wrappers` | `Option`, `Result` |
| `json.dfy` | `Json` | `Value`: the dicts, lists and strings the source builds |
| `decimal.dfy` | `Decimal` | `str(n)` for an int (the f-string `{budget}`), and the digits read back |
| `uuids.dfy` | `Uuids` | a UUID as 32 hex digits, its canonical text `str(u)`, and `UUID(s)` |
| `schema.dfy` | `Schema` | the records and their dict projections, with readers for the round trip |
| `llm.dfy` | `Llm` | `process_answers` |
| `session.dfy` | `Session` | `SessionData`, `get_session_id`, class `SessionManager` |

How the session store is modelled:

- The table of `app/database.py` is the field `rows: map<string, SessionData>` of
  class `SessionManager`, keyed by the id's text as the primary-key column is.
  The JSON encoding of the payload (`json.dumps` on write, `json.loads` and
  `SessionData(**...)` on read) is taken to be the identity, so a row holds the
  record itself.
- `uuid4()` is a source of randomness: the id it draws is the parameter
  `minted` of `GetSession`. If that id's text is already a key, the insert
  fails on the primary key, and `GetSession` returns `Failure(DuplicateId)`
  with the store unchanged.
- `UUID(session_id)` at `app/session.py:27` raises `ValueError` when the
  matching row's key is not UUID text. `GetSession` returns
  `Failure(MalformedStoredId)` there. The invariant `Valid()` says every key
  is the canonical text of a UUID. All three methods preserve it, and under it
  that failure cannot happen.
- The methods are `async` in the source. Here they run one after another.

Three behaviours of the code that a session store is often expected not to have:

- `update_session` on an id with no row does nothing (`app/session.py:44`).
  It does not insert the row.
- A stored payload that fails to decode is not caught at `app/session.py:27`:
  the call raises. It does not fall back to creating a session. That path is
  outside the model (see below).
- `get_session` treats both `None` and the empty string as "no id"
  (`if session_id:`), and then creates a session even when rows exist.

## Model

| member | source | states |
|---|---|---|
| `Session.GetSessionId` | app/session.py:63-70 | no cookie or an empty cookie gives None; otherwise the result is what `UUID(cookie)` reads, None where that raises |
| `Session.CookieRoundTrip` | app/session.py:57-70 | the cookie value written for a session (`str(session_id)`) reads back as exactly that session id |
| `Session.SessionManager.constructor` | app/session.py:19-20 | the manager works on the store's current rows; an empty store satisfies the key invariant |
| `Session.SessionManager.GetSession` | app/session.py:9-39 | a non-empty id with a row returns the parsed id and exactly the stored payload and leaves the store unchanged; `None`, `""` or an id without a row stores the minted id with the default payload (no answers, no budget, step 1, no questions, recipient `""`, no summary, no suggestions), adding exactly one row and leaving every other row as it was; a minted id that is already a key fails and changes nothing; the key invariant is preserved, and under it the parse of a found id never fails and the result's id text is a key holding the returned payload |
| `Session.SessionManager.UpdateSession` | app/session.py:41-46 | an existing row's whole payload is replaced and every other row is unchanged; with no row for the id the store is identical afterwards; the key invariant is preserved |
| `Session.SessionManager.DeleteSession` | app/session.py:48-51 | the row for the id is removed if present, absence is not an error, every other row is unchanged; the key invariant is preserved |
| `Session.UpdateThenGet` | app/session.py:22-46 | a payload written with `update_session` to an existing row is read back by `get_session` with the same id and exactly that payload |
| `Session.DeleteThenGet` | app/session.py:22-51 | after `delete_session`, `get_session` with the deleted id no longer finds it: it returns the minted id with the default payload, and the store is the old one without the deleted row plus the minted row holding the default payload |
| `Uuids.Text` | app/session.py:33 | `str(u)` is 36 characters with hyphens at positions 8, 13, 18 and 23 |
| `Uuids.ParseText` | app/session.py:27-33 | `UUID(str(u)) == u`: the text written as a row key reads back as the same UUID, so every key the manager writes is canonical |
| `Uuids.TextInjective` | app/session.py:30-36 | distinct UUIDs have distinct texts, so a text key names one session |
| `Decimal.NatText` | app/llm.py:8-11 | the decimal text of a natural number is a non-empty string of digits with no leading zero |
| `Decimal.IntText` | app/llm.py:8-11 | `str(budget)` starts with `-` exactly for negative budgets, followed by digits without a leading zero |
| `Decimal.IntTextValue` | app/llm.py:8-11 | `str(budget)` denotes the budget: a non-negative budget's digits read back as it, a negative budget's digits after the sign read back as its magnitude |
| `Decimal.DigitsValueOfNatText` | app/llm.py:8-11 | reading the written digits back gives the number |
| `Decimal.IntTextInjective` | app/llm.py:8-11 | different budgets have different decimal texts |
| `Llm.ProcessAnswers` | app/llm.py:1-13 | the result has exactly the keys `summary` and `suggestions`; the summary is the same constant text for every input; there are exactly 4 suggestions, suggestion i being the fixed idea at position i, then ` (within $`, then the budget's decimal text, then ` budget)` |
| `Llm.ProcessAnswersIgnoresAnswers` | app/llm.py:1-13 | two calls with the same budget give equal results whatever the answers |
| `Llm.ProcessAnswersDeterminesBudget` | app/llm.py:8-11 | equal results imply equal budgets: the budget is stamped into the suggestions recoverably |
| `Schema.QuestionDict` | app/schema.py:20-24 | `Question.dict()` has exactly the keys `question` and `placeholder`, holding the record's two fields |
| `Schema.QuestionDicts` | app/schema.py:32 | the list comprehension keeps length and order: element i is the dict of question i |
| `Schema.ResponseDict` | app/schema.py:30-33 | `QuestionResponse.dict()` has the single key `questions`, a list as long as the questions whose element i is the dict of question i |
| `Schema.QuestionRoundTrip` | app/schema.py:16-24 | a question read back from its dict is the same question |
| `Schema.QuestionsRoundTrip` | app/schema.py:32 | the list of question dicts reads back as the same questions in the same order |
| `Schema.ResponseRoundTrip` | app/schema.py:27-33 | a question response read back from its dict is the same response: nothing lost, reordered or added |

## Left out

- `attach_session_id` (app/session.py:53-61): it only sets an HTTP cookie through the web framework; the cookie's flags (`httponly`, `max_age=1800`, `samesite="lax"`) are not modelled. Only its value, `str(session_id)`, is used, in `CookieRoundTrip`.
- JSON encoding and decoding of the payload, and pydantic validation of a stored row: taken as the identity. The decode failure at app/session.py:27 (a row whose blob does not decode into `SessionData`) raises in the source and is not modelled.
- ParseUuid: reads hex digits of either case with hyphens anywhere, as Python's `UUID` does, but does not model its removal of `urn:` and `uuid:` wherever they occur in the string (`str.replace`), its stripping of `{` and `}` from both ends, nor the leniency of `int(hex, 16)` towards surrounding (including Unicode) whitespace, a sign, a `0x` prefix, underscores and non-ASCII decimal digits; such strings read as None here.
- IntText / ProcessAnswers: Python's `str(int)`, and so the f-string `{budget}` at app/llm.py:8-11, raises `ValueError` for integers with more digits than the interpreter's integer-string limit (4300 by default); here every int gets its text. A budget read from form text through `int()` is bounded by the same limit.
- `uuid4()` randomness: the drawn id is the parameter `minted`; its version and variant bits are not constrained.
- Database failures other than the duplicate primary key (I/O errors, a failed commit) are not modelled.
- `app/database.py`: the SQLAlchemy engine, session factory, table creation, `get_db`, and the `created_at` / `updated_at` timestamps, which depend on the wall clock. Only the row shape (id text to payload) is kept.
- `app/main.py`: the web application, static files, templates and the server entry point are web glue; its sample question list is data.
- `async` on the manager's methods: modelled as sequential calls.
- Key order of Python dicts: JSON objects are maps.
- `GiftItem` and `GiftSuggestion` have no operations in the source; they are datatypes only.
