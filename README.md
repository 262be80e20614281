# Fatvo Maslahatchi: the per-session conversation state, in Dafny

The app (`app.py`) is a Streamlit chat front-end to a hosted assistant. A
user asks a question in Latin-script Uzbek. The app converts the question to
Cyrillic, posts it to a remote assistant thread and runs the assistant. It
converts the Cyrillic answer back to Latin and keeps both in the chat
history. This project models the state that one browser session keeps: an
optional remote thread id and an append-only list of message records. It
also models the four operations that act on that state:

- the two fail-open conversion wrappers (`transliteration.dfy`);
- lazy, idempotent thread acquisition;
- the chat-turn handler;
- the "clear chat" reset.

The remote service and the transliteration library are inputs to the model:

- a thread creation is an `Option<string>` (`None` when the SDK raises);
- a run is a `RunOutcome`: `Completed(reply)`, `RunFailed(lastError)`,
  `RequiresAction`, `Other(status)` or `Raised(error)`;
- the library is a function `(text, source, target) -> Option<string>`
  (`None` when it raises).

`conversation.dfy` gives the data model and what each operation does, as
functions on a `State` value. `Replay` folds a run of events, one per
script run (a chat input or a press of "clear chat").
`conversation_properties.dfy` proves the properties. `session.dfy` holds the
class `Session` with fields `threadId` and `messages`. Its methods do the
source's steps in order, and each is proved to end in the state the
functions describe.

Modelling decisions:

- A thread id counts as present only when it is set and non-empty. This is
  Python's truth test `not st.session_state.thread_id` (`Usable`).
- `st.stop()` (app.py:167) and `st.rerun()` (app.py:257) end the script run
  through Streamlit's control exceptions. Those do not derive from
  `Exception`. So the handler at app.py:221 does not catch the stop, and the
  handler at app.py:258 does not catch the rerun. A turn without a thread
  therefore appends exactly one error record.
- The turn handler runs only for a truthy chat input (app.py:135). An empty
  input changes nothing (`Step`, `Session.HandleTurn`), and `TakeTurn`
  models the guarded body, so it requires a non-empty prompt.
- `Other(status)` stands for every status the `elif` chain does not name.
  `KnownOutcome` says so, and the per-outcome lemma `DiagnosticTurns`
  assumes it.
- A record key that is absent and a key holding `None` are both `None` in
  `Message`.

Reset is not atomic. app.py:252-263 empties the history first and creates
the new thread at once. If that creation fails, the old thread id stays, so
the next turn continues on the old remote thread with an empty local
history. `Reset` and `ResetClearsHistory` state this.

## Model

| member | source | states |
|---|---|---|
| Transliteration.PreprocessQuestion | app.py:69-83 | the question is converted Latin to Cyrillic; the result is tagged Converted exactly when the library returns, and then is its output; otherwise it is the question unchanged, tagged Failed |
| Transliteration.PostprocessResponse | app.py:85-99 | the answer is converted Cyrillic to Latin, fail-open in the same way |
| Transliteration.QuestionDirectionIsFixed | app.py:75-79 | the question wrapper's result depends only on the library's Latin-to-Cyrillic direction |
| Transliteration.ResponseDirectionIsFixed | app.py:91-95 | the answer wrapper's result depends only on the library's Cyrillic-to-Latin direction |
| Conversation.Acquire | app.py:102-119 | a remote creation is requested exactly when no usable id is stored; otherwise the stored id is returned and kept; a successful creation is stored and returned; a failed one returns None and leaves the stored id as it was; whatever is returned is what is stored |
| Conversation.Answer | app.py:190-204 | the answer record is an assistant record; converted is true exactly when the Cyrillic-to-Latin conversion succeeds; content is then the library's output and original the Cyrillic reply; otherwise content is the reply and original is None |
| Conversation.Reply | app.py:160-227 | a turn adds at most one assistant record after the prompt; it adds none exactly when a usable thread was obtained and the run requires action; every record it adds is consistent; with no usable thread it is the "thread could not be created" record |
| Conversation.TakeTurn | app.py:135-227 | for a non-empty prompt, a turn stores the thread id the acquisition leaves, keeps the old history as a prefix, puts the raw prompt record (content and original both the prompt) right after it, adds one or two records in all, requests a thread exactly when none was usable, and submits exactly when a usable thread is stored afterwards, sending the preprocessed prompt to that thread |
| Conversation.Reset | app.py:251-257 | the history is always emptied; the thread id becomes the new one when creation succeeds and otherwise stays as it was |
| ConversationProperties.AcquireIsIdempotent | app.py:106-119 | after an acquisition returned a usable handle, the next one requests nothing and returns and keeps the same handle |
| ConversationProperties.AcquireCreatesOnlyWhenMissing | app.py:106-118 | with no usable id, a successful creation stores and returns the new id, and a failed one returns None and stores nothing new |
| ConversationProperties.NoThreadMeansNoSubmission | app.py:160-167 | without a usable thread the turn submits nothing and appends exactly the prompt record and one error record |
| ConversationProperties.SubmitsConvertedPrompt | app.py:148-174 | with a usable thread, the text posted is the Cyrillic conversion of the prompt, or the raw prompt when conversion failed |
| ConversationProperties.CompletedTurnAppendsAnswer | app.py:184-204 | a completed run appends the prompt and one answer record whose content, converted flag and original follow the outcome of the Cyrillic-to-Latin conversion |
| ConversationProperties.DiagnosticTurns | app.py:205-227 | for an outcome the status chain can produce, failed appends one error record with last_error's message, or "failed" when there is none; another status appends one "waiting" record naming it; an exception appends one error record with its text; requires_action appends no assistant record |
| ConversationProperties.TurnKeepsWellFormed | app.py:127-144 | a turn keeps the history well formed: user records keep their prompt as original, converted records carry an original for the caption, the first record is a user record, and each assistant record follows a user record |
| ConversationProperties.ResetClearsHistory | app.py:251-263 | reset always empties the history; the thread id is replaced when the creation succeeds and is otherwise left as it was |
| ConversationProperties.HistoryIsAppendOnly | app.py:135-227 | across any run of chat inputs without a reset, the earlier history stays a prefix, each non-empty input adds one or two records, and an empty one adds none |
| ConversationProperties.ThreadIsStable | app.py:106-119 | across any run of turns without a reset, a usable thread id never changes |
| ConversationProperties.ReplayKeepsWellFormed | app.py:135-263 | every history reachable by turns and resets from a well-formed one is well formed |
| SessionState.Session.constructor | app.py:122-124 | a new session has an empty history and no thread |
| SessionState.Session.GetOrCreateThread | app.py:102-119 | the method ends in the state Acquire gives, touching only the thread id |
| SessionState.Session.HandleTurn | app.py:135-227 | an empty input changes nothing; otherwise the method ends in TakeTurn's state and submission, puts the prompt record first, and adds no assistant record exactly when a usable thread is stored and the run requires action; the history stays well formed and only grows |
| SessionState.Session.ClearChat | app.py:251-263 | the method empties the history, reports whether a new thread was created, and replaces the thread id only then |

## Left out

- Rendering: the chat history display, spinners, notices, captions and the sidebar text (app.py:57-66, app.py:126-133, app.py:229-277). These are user interface only. The model records the conversion flag and original that the caption at app.py:131-132 reads. It proves that a converted record always has an original. The caption's "Lotin" label is then shown beside the Cyrillic text, which is out of scope.
- Credential loading from `st.secrets` or `.env`, and the tests for "401" and "invalid_api_key" in exception text (app.py:13-55, app.py:113-117, app.py:260-263). These only choose which error to display.
- The OpenAI SDK calls: thread creation, message posting, `create_and_poll` with `timeout=90`, and the message list (app.py:108, app.py:170-190). Their polling and timeout run inside the SDK, so they appear only as the abstract `RunOutcome`. The case where `messages.data[0]` holds no text falls under `Raised`.
- The Latin-Cyrillic mapping and any round-trip law for it. The mapping belongs to the UzTransliterator library, which is not part of this model.
- The `st.warning` and `st.info` notices of the conversion wrappers and the turn (app.py:82, app.py:98, app.py:152-153, app.py:213). They are display only and change no state.
- The sidebar's extra `get_or_create_thread()` on every script run (app.py:267). It is the same idempotent operation as `Session.GetOrCreateThread`, and the event model does not include it.
- Concurrency: Streamlit isolates sessions, and each script run handles one event, so there is nothing concurrent to model.
