# DiskML chat turn, modelled in Dafny

DiskML Analitik is a Streamlit page (`app.py`) where a user asks questions
about a Random Forest disk-failure classifier. The answers come from a
`llama3` model served by Ollama. This project models the part of the page
with behaviour of its own: the chat turn.

- `st.session_state.messages` is created empty when the session has none.
- The user's question is appended to it.
- A prompt is built. It is a fixed Slovene instruction quoting the first 15
  rows of the feature-importance table, followed by the question.
- That prompt is posted to `http://ollama:11434/api/generate` with a
  120-second timeout.
- The way the call ends becomes the reply text, which is appended as the
  assistant's message.

Modules:

- `Wrappers` (`wrappers.dfy`): `Option`.
- `Decimal` (`decimal.dfy`): Python's `str` on an integer, and a parser that
  inverts it.
- `Lines` (`lines.dfy`): `head(n)`, the newline join of a rendered table, and
  a split that inverts the join.
- `Prompt` (`prompt.dfy`): the context section, the system instruction, the
  `{model, prompt, stream}` payload and the request. The prompt constants are
  the page's own text, character for character.
- `Reply` (`reply.dfy`): the network call is replaced by an `Outcome`
  parameter: `Http(status, responseField)`, `ConnectionError` or
  `OtherError(desc)`. `ReplyOf` maps an outcome to the reply text.
  `Diagnose` reads a reply back and is the partner of `ReplyOf`.
- `Chat` (`chat.dfy`): the `Session` class. Its field `messages` is
  `None` until the history exists. `InitHistory`, `Turn` and `Run` (one run
  of the script) change it in place. `HistoryAfterTurn` is the pure
  specification of a turn. `Alternating` says a history is made of
  question/reply pairs.

Three things about the turn in `app.py` shape the model:

- If the feature-importance table failed to load (`importance_df` is
  `None`), line 60 raises, after the question was appended at line 54. That
  line is outside the `try` that starts at line 81, so the context does not
  fall back to an empty one. The model records this as `TurnResult.Raised`:
  the history grows by one message only, and the question stays unanswered
  (`Chat.RaisedTurnLeavesQuestionOpen`).
- The prompt holds only the system instruction and the current question
  (line 86). Earlier messages of the conversation never enter it.
- The history only ever grows: the file appends to it at lines 54 and 105
  and has no action that removes messages.

## Model

| member | source | states |
|---|---|---|
| `Chat.Session.constructor` | app.py:43 | A new session has no `messages` entry. |
| `Chat.Session.InitHistory` | app.py:43-44 | Afterwards the history exists. It is empty if there was none before. An existing history is left unchanged, so running it again changes nothing. |
| `Chat.Session.Turn` | app.py:54-105 | The new history is `HistoryAfterTurn` of the old one. With the table loaded, the turn returns the request it posted and the reply it recorded. Without the table it returns `Raised`. |
| `Chat.Session.Run` | app.py:43-60 | The history is initialised. A turn is taken exactly when a non-empty question was submitted. Otherwise the history is the initialised one, unchanged. A submitted question without the table ends in `Raised`; with the table, in the posted request and the recorded reply. |
| `Chat.HistoryAfterTurn` | app.py:54-105 | A completed turn grows the history by exactly two messages: the user's question, then the assistant's `ReplyOf(outcome)`. A turn without the table grows it by one. Earlier messages are unchanged. |
| `Chat.CompletedTurnKeepsPairs` | app.py:54-105 | A history made of user/assistant pairs stays made of pairs after a completed turn, whatever the outcome of the call. |
| `Chat.RaisedTurnLeavesQuestionOpen` | app.py:54-60 | A turn without the table leaves a history of pairs with an unanswered question. The result is no longer made of pairs. |
| `Chat.AlternatingIsEven` | app.py:54-105 | A history made of question/reply pairs has even length. |
| `Lines.Head` | app.py:60 | `head(n)` is the prefix of `s` whose length is the smaller of `n` and the length of `s`. |
| `Prompt.PayloadOf` | app.py:84-88 | The model is `"llama3"` and `stream` is false. The prompt is the system instruction, then `"\n\nUporabnik sprašuje: "`, then the question, so it ends with the question. |
| `Prompt.RequestOf` | app.py:83-90 | The request goes to the fixed generate URL with a 120-second timeout and carries `PayloadOf`. |
| `Prompt.PromptParts` | app.py:62-86 | The prompt starts with the fixed instruction text. What lies between the instruction text and the question is exactly the rendered context. |
| `Prompt.PromptListsFirstRows` | app.py:60-70 | Assume no rendered line contains a newline. Then the prompt's context section splits into the header followed by the table's first 15 rows, in their original order. At most 15 rows are included, and all of them when the table is shorter. |
| `Prompt.SidebarWithinContext` | app.py:26-28 | The sidebar shows at most 10 rows. They are the first rows of those the prompt quotes (line 60). |
| `Prompt.PayloadDeterminesQuestion` | app.py:86 | Two questions give the same payload only when they are equal. |
| `Decimal.NatToDecimal` | app.py:95 | The rendering of a status code is a non-empty string of digits with no leading zero. |
| `Decimal.ParseIntRoundTrip` | app.py:95 | Reading back `str(code)` gives the code, negative codes included. |
| `Reply.SuccessPassesTextThrough` | app.py:92-93 | Status 200 with a `response` field gives exactly that text. |
| `Reply.MissingFieldIsNotAnError` | app.py:92-93 | Status 200 without the field gives `"AI ni vrnil odgovora."`. That reply reads as an answer, never as an error. |
| `Reply.BadStatusNamesCode` | app.py:94-95 | A status other than 200 gives `"Napaka: Ollama je vrnila status " + str(code) + "."`. The code can be read back from that reply. |
| `Reply.ConnectionErrorIsReported` | app.py:97-98 | A connection error gives the fixed connectivity notice. It reads as unreachable, never as the generic failure of the later handler. |
| `Reply.OtherFailureQuotesDescription` | app.py:99-100 | Any other exception gives `"Prišlo je do napake: " + desc`. The description reads back unchanged. |
| `Reply.FailuresAreDistinguished` | app.py:92-100 | Every failing outcome (bad status, connection error, other exception) is read back as its own kind, with its code or description. None is taken for an answer or for another kind. |

## Left out

- The Streamlit page itself: page config, title, the sidebar widgets, the
  chat bubbles, the placeholder and the loop that redraws the history
  (app.py:8, 25-40, 46-49, 55-56, 77-78, 102). These only display things.
  Of the sidebar, only which rows it shows is modelled.
- `load_resources` (app.py:11-22) reads a CSV with pandas and unpickles the
  classifier with joblib. The model takes its result as a parameter
  (`Option<Table>`). The classifier itself is never used by the turn.
- `DataFrame.to_string`: the header and the rows are opaque, already-rendered
  lines. Column alignment is not modelled. It can depend on which rows are
  rendered, so a row's text in the prompt and in the sidebar may differ in
  padding. Neither is the text pandas prints for an empty frame.
- The HTTP client: `requests.post`, its timeout and `response.json()`
  (app.py:90, 93). The way the call ends is the `Outcome` parameter. The
  120-second timeout appears only as a constant in the request. Which
  outcome a given network event produces is decided inside `requests` and
  is not modelled. For example, a read timeout is an `OtherError`, while a
  refused connection is a `ConnectionError`.
- A `response` field that is present but is not a string (for example JSON
  `null`) is not modelled: `responseField` is an `Option<string>`.
- The JSON encoding of the payload is not modelled. `Payload` is the
  dictionary before encoding.
- After an exception at line 60, Streamlit shows a traceback and the run
  ends. The model records only that the turn stopped (`Raised`) and what the
  history then holds.
- The accuracy and recall figures are literal text inside the prompt and
  the sidebar. They are not computed.
- Concurrency and interrupted runs: Streamlit may stop a running script at
  its next `st.*` call when the user submits again, and may start the new
  run before the old one has stopped. In `app.py` such a call (line 102)
  comes before the assistant append at line 105, so a run interrupted there
  leaves an unanswered question even with the table loaded. The model treats
  each run as one uninterrupted, sequential method call on the session.
- Chat.CompletedTurnKeepsPairs: covers only turns that reach line 105; a run
  interrupted by a new submission, which can leave the history with an
  unanswered question, is not modelled.
