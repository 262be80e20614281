/** The per-session conversation state of app.py, as values: the message
    records, the outcome of one remote run, and the functions that say what a
    thread acquisition, a chat turn and a "clear chat" do to the state. The
    class in session.dfy performs these steps imperatively and is proved
    against the functions here. */
module Conversation {
  import opened Wrappers
  import opened Transliteration

  datatype Role = User | Assistant

  /** One record of `st.session_state.messages`. `original` and `converted`
      are None when the record has no such key (or holds None under it). */
  datatype Message = Message(role: Role, content: string, original: Option<string>, converted: Option<bool>)

  /** What one submission to the remote assistant comes to, after the SDK's
      own polling. */
  datatype RunOutcome =
    | Completed(reply: string)           // status "completed"; reply is the newest message's text, in Cyrillic
    | RunFailed(lastError: Option<string>)  // status "failed"; the message of last_error, when there is one
    | RequiresAction                     // status "requires_action"
    | Other(status: string)              // any other status the run ended in (see KnownOutcome)
    | Raised(error: string)              // an exception while posting, running or fetching

  /** An outcome as the `elif` chain can produce it: `Other` carries none of
      the three statuses the chain names. */
  predicate KnownOutcome(o: RunOutcome)
  {
    o.Other? ==> o.status !in {"completed", "failed", "requires_action"}
  }

  /** What the turn sent to the remote thread. */
  datatype Submission = NotSubmitted | Submitted(threadId: string, text: string)

  /** The state kept in `st.session_state`. */
  datatype State = State(threadId: Option<string>, messages: seq<Message>)

  /** What `get_or_create_thread` leaves stored, what it returns, and whether
      it asked the remote service for a new thread. */
  datatype Acquisition = Acquisition(stored: Option<string>, handle: Option<string>, requested: bool)

  /** The new state of a turn, what it submitted, and whether it asked for a
      new thread. */
  datatype TurnResult = TurnResult(after: State, sent: Submission, requested: bool)

  /** One script run that changes the state: a chat input or a press of the
      "clear chat" button, each with the remote results it meets. */
  datatype Event =
    | Ask(prompt: string, created: Option<string>, outcome: RunOutcome)
    | Clear(created: Option<string>)

  const NoThreadText: string := "❌ Thread yaratib bo'lmadi. Iltimos, API keyni tekshiring."

  function FailedText(lastError: Option<string>): string
  {
    "❌ Xatolik yuz berdi: " + match lastError case Some(m) => m case None => "failed"
  }

  function WaitingText(status: string): string
  {
    "⏳ Javob kutayapti: " + status + ". Iltimos, biroz kuting va qayta urinib ko'ring."
  }

  function ErrorText(error: string): string
  {
    "❌ Xatolik: " + error
  }

  /** Python's truth test on a stored thread id: absent and "" both fail it. */
  predicate Usable(id: Option<string>)
  {
    id.Some? && id.value != ""
  }

  /** The record of the user's raw prompt. */
  function UserMessage(prompt: string): Message
  {
    Message(User, prompt, Some(prompt), None)
  }

  /** An assistant record carrying a diagnostic text only. */
  function Notice(text: string): Message
  {
    Message(Assistant, text, None, None)
  }

  /** The record of a completed answer: the Latin text is shown, and the
      Cyrillic original is kept only when the conversion worked. */
  function Answer(tr: Transliterator, reply: string): (m: Message)
    ensures m.role == Assistant && m.converted.Some?
    ensures m.converted == Some(true) <==> tr(reply, Cyrillic, Latin).Some?
    ensures m.converted == Some(true) ==> tr(reply, Cyrillic, Latin) == Some(m.content) && m.original == Some(reply)
    ensures m.converted == Some(false) ==> m.content == reply && m.original == None
  {
    var r := PostprocessResponse(tr, reply);
    Message(Assistant, r.text, if r.status == Converted then Some(reply) else None, Some(r.status == Converted))
  }

  /** A record the history may hold: a user record keeps its prompt as
      original and has no conversion flag, and a record flagged converted has
      an original to show in its caption. */
  predicate Consistent(m: Message)
  {
    (m.role == User ==> m.original == Some(m.content) && m.converted == None) &&
    (m.converted == Some(true) ==> m.original.Some?)
  }

  /** The shape every history has: consistent records, a user record first,
      and every assistant record right after a user record. */
  predicate WellFormed(h: seq<Message>)
  {
    (forall i :: 0 <= i < |h| ==> Consistent(h[i])) &&
    (|h| > 0 ==> h[0].role == User) &&
    (forall i :: 0 < i < |h| ==> h[i].role == Assistant ==> h[i - 1].role == User)
  }

  /** `get_or_create_thread`, given what the remote creation would answer. */
  function Acquire(stored: Option<string>, created: Option<string>): (a: Acquisition)
    ensures a.requested <==> !Usable(stored)
    ensures !a.requested ==> a.stored == stored && a.handle == stored
    ensures a.requested ==> a.handle == created
    ensures a.requested && created.None? ==> a.stored == stored
    ensures a.handle.Some? ==> a.stored == a.handle
  {
    if Usable(stored) then Acquisition(stored, stored, false)
    else match created
      case Some(id) => Acquisition(Some(id), Some(id), true)
      case None => Acquisition(stored, None, true)
  }

  /** The assistant records a turn appends after the user record, given the
      handle the acquisition returned and the run's outcome. */
  function Reply(tr: Transliterator, handle: Option<string>, outcome: RunOutcome): (r: seq<Message>)
    ensures |r| <= 1
    ensures r == [] <==> Usable(handle) && outcome.RequiresAction?
    ensures forall i :: 0 <= i < |r| ==> r[i].role == Assistant && Consistent(r[i])
    ensures !Usable(handle) ==> r == [Notice(NoThreadText)]
  {
    if !Usable(handle) then [Notice(NoThreadText)]
    else match outcome
      case Completed(reply) => [Answer(tr, reply)]
      case RunFailed(lastError) => [Notice(FailedText(lastError))]
      case RequiresAction => []
      case Other(status) => [Notice(WaitingText(status))]
      case Raised(error) => [Notice(ErrorText(error))]
  }

  /** One chat turn, the body of the `if prompt := ...` guard, so for a
      non-empty prompt: record the prompt, convert it, acquire a thread, and
      submit the converted prompt only when a usable thread was obtained. */
  function TakeTurn(tr: Transliterator, s: State, prompt: string, created: Option<string>, outcome: RunOutcome): (t: TurnResult)
    requires prompt != ""
    ensures t.after.threadId == Acquire(s.threadId, created).stored
    ensures |s.messages| < |t.after.messages| <= |s.messages| + 2
    ensures s.messages <= t.after.messages
    ensures t.after.messages[|s.messages|] == UserMessage(prompt)
    ensures t.requested <==> !Usable(s.threadId)
    ensures t.sent.Submitted? <==> Usable(t.after.threadId)
    ensures t.sent.Submitted? ==> t.sent == Submitted(t.after.threadId.value, PreprocessQuestion(tr, prompt).text)
  {
    var a := Acquire(s.threadId, created);
    var sent := if Usable(a.handle) then Submitted(a.handle.value, PreprocessQuestion(tr, prompt).text) else NotSubmitted;
    TurnResult(State(a.stored, s.messages + [UserMessage(prompt)] + Reply(tr, a.handle, outcome)), sent, a.requested)
  }

  /** The "clear chat" button: empty the history, then store a new thread id
      if the remote creation succeeds. */
  function Reset(s: State, created: Option<string>): (t: State)
    ensures t.messages == []
    ensures created.Some? ==> t.threadId == created
    ensures created.None? ==> t.threadId == s.threadId
  {
    State(if created.Some? then created else s.threadId, [])
  }

  /** The state after one event. An empty chat input fails the truth test of
      the `if prompt := ...` guard and changes nothing. */
  function Step(tr: Transliterator, s: State, e: Event): State
  {
    match e
    case Ask(prompt, created, outcome) =>
      if prompt == "" then s else TakeTurn(tr, s, prompt, created, outcome).after
    case Clear(created) => Reset(s, created)
  }

  /** The state after a run of events, one script run each. */
  function Replay(tr: Transliterator, s: State, events: seq<Event>): State
    decreases |events|
  {
    if events == [] then s else Replay(tr, Step(tr, s, events[0]), events[1..])
  }

  /** The number of chat inputs in a run of events that pass the guard. */
  function Asked(events: seq<Event>): nat
    decreases |events|
  {
    if events == [] then 0
    else (if events[0].Ask? && events[0].prompt != "" then 1 else 0) + Asked(events[1..])
  }

  /** A run of events with no "clear chat" among them. */
  predicate NoClear(events: seq<Event>)
  {
    forall i :: 0 <= i < |events| ==> events[i].Ask?
  }
}
